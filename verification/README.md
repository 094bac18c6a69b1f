# UML diagram code generator, modelled in Dafny

This project models `generate_code_from_diagram` from a small UML diagram
editor. The function takes a diagram and a language name. The diagram is a
list of class records (name, attributes, methods) and a list of typed
associations. The function returns one text made of Python, Java or PHP class
skeletons, followed by one comment line for each aggregation and dependency
association.

Modules, following the structure of the function:

- `Uml` (`uml.dfy`): the records (`Cls`, `Assoc`, `Diagram`) and the
  `Result`/`Error` pair for the one failure, `ValueError("Unsupported language")`.
- `Text` (`text.dfy`): Python's `"\n".join` (`Join`) and `str.split("\n")`
  (`Split`), with their round trips.
- `ClassTable` (`class_table.dfy`): the dict comprehension that keys class
  records by name. `Build` inserts records one by one with dict assignment
  semantics. `IsTableOf` states the result: one entry per distinct name, in
  order of first occurrence, each holding the last record with that name.
- `Resolver` (`resolver.dfy`): the parent scan. Every matching inheritance
  association overwrites the candidate, so the last one wins.
- `Emitters` (`emitters.dfy`): the nested `format_class`, one branch per
  language. A second description of the same output is a per-language
  template table (`HeaderTemplate`, `AttributeTemplate`, `MethodTemplate`,
  `ParentTemplate`, `Closing`). Each template has a `Match` inverse that
  recovers the name a line was made from.
- `Generator` (`generator.dfy`): the class loop (`ClassBlocks`), the
  association comment loop (`CommentParts`) and the final join (`Generate`).
- `Example` (`example.dfy`): the sample diagram shipped with the generator,
  with its exact Python, Java and PHP output.

Details kept from the code:

- A parent counts only when it is truthy in Python's sense. A missing parent
  and an empty name both give a header without an inheritance clause
  (`HasParent`).
- The language check sits inside `format_class`. A diagram with no classes
  therefore generates its comments for any language name, even an unknown one.
- Python attribute lines are written at the same four-space indent as
  `def __init__(self):`, and Java and PHP method stubs end in a newline
  before the joining newline. The model reproduces both as written.
- When several inheritance associations point into one class, the last one
  wins (`Resolver.ParentIsLastMatch`, `Resolver.LaterInheritanceWins`).
- Class records are keyed by name in a dict. Records with the same name
  collapse into one block, which holds the last record's members
  (`ClassTable.BuildSpec`, `Generator.BlocksPerDistinctName`).
- Only aggregation and dependency associations produce comment lines, one
  each, after all class blocks. Inheritance associations only set a class's
  parent clause. Composition and any other kind produce nothing
  (`Generator.CommentOfOne`, `Generator.BlocksThenComments`).
- An unsupported language fails only when a class is formatted
  (`Generator.GenerateFailsExactly`).

## Model

| member | source | states |
|---|---|---|
| `Text.JoinAppend` | src/models/code_generator.py:68 | joining two non-empty part lists equals the two joins with one newline between them |
| `Text.JoinSplit` | src/models/code_generator.py:68 | splitting any text on newlines and joining it again gives back the text |
| `Text.SplitJoin` | src/models/code_generator.py:68 | splitting the join of newline-free parts gives back exactly those parts |
| `ClassTable.IndexOf` | src/models/code_generator.py:5 | the result is the position of the first record with the name, or the length when no record has it |
| `ClassTable.LastIndexOf` | src/models/code_generator.py:5 | the result is the position of the last record with the name, or the length when no record has it |
| `ClassTable.BuildSpec` | src/models/code_generator.py:5 | the name-keyed table has pairwise distinct names and exactly the input's names, as many entries as distinct names, keys in order of first occurrence, and under each key the last record with that name |
| `Resolver.ScanSpec` | src/models/code_generator.py:45-50 | the overwriting scan keeps its start value when no inheritance association targets the class, and otherwise ends on the `from` of the last one that does |
| `Resolver.ParentIsLastMatch` | src/models/code_generator.py:45-50 | a class has no parent exactly when no inheritance association targets it, and a matching association with no later match decides the parent |
| `Resolver.ParentWitness` | src/models/code_generator.py:45-50 | any parent found is the `from` of an inheritance association into the class that no later one overrides |
| `Resolver.LaterInheritanceWins` | src/models/code_generator.py:48-50 | with two inheritance associations into one class, the second one's `from` is the parent |
| `Emitters.LanguageNames` | src/models/code_generator.py:12-41 | exactly the names "python", "java" and "php" select an emitter, each its own language |
| `Emitters.Emit` | src/models/code_generator.py:11-41 | formatting fails, with the unsupported-language error, exactly when the language name is none of "python", "java" and "php"; each of those names gives its own language's block |
| `Emitters.MatchFill` | src/models/code_generator.py:14-34 | a line made from a template and a name gives back that name |
| `Emitters.FillMatch` | src/models/code_generator.py:14-34 | a line that matches a template is that template filled with the matched name |
| `Emitters.BlockMembers` | src/models/code_generator.py:11-39 | every block is the language's header around the name and parent clause, an attribute section, a newline, the joined method stubs and the language's closing text; the section has one line per attribute and the stubs one per method, each giving back its member's name in order; no attributes leave the section empty, and newline-free attribute names make it split back into its lines |
| `Emitters.InheritanceClauseNamesParent` | src/models/code_generator.py:13-32 | the header has an inheritance clause exactly when the parent is a non-empty name, and the clause gives that name back |
| `Emitters.LinesNameTheirMembers` | src/models/code_generator.py:14-34 | the i-th attribute line and the i-th method stub give back the i-th attribute and method name |
| `Emitters.AttributeSectionLines` | src/models/code_generator.py:14-37 | with no attributes the attribute section is empty; with newline-free names it splits back into exactly its attribute lines, one per attribute, in order, each naming its attribute |
| `Emitters.BlockFraming` | src/models/code_generator.py:16-39 | Python blocks open with `class N…:` and `def __init__(self):`; Java blocks open with `public class N… {` and close with `}`; PHP blocks open with `<?php` and `class N… {` and close with `}` and `?>` |
| `Generator.ClassBlocks` | src/models/code_generator.py:43-53 | the class loop fails exactly when there is a class and the language is unknown; for each supported language it gives one block per table entry, in order, with that entry's members and resolved parent |
| `Generator.CommentPartsAppend` | src/models/code_generator.py:56-66 | the comments of concatenated association lists are the concatenated comments, so they follow association order |
| `Generator.CommentOfOne` | src/models/code_generator.py:56-66 | an aggregation gives the line `# Aggregation: F aggregates T`, a dependency gives `# Dependency: F depends on T`, and any other kind gives nothing |
| `Generator.CommentCount` | src/models/code_generator.py:56-66 | there are exactly as many comments as aggregation and dependency associations |
| `Generator.NoComments` | src/models/code_generator.py:56-66 | without aggregation or dependency associations there are no comments |
| `Generator.GenerateFailsExactly` | src/models/code_generator.py:40-53 | generation fails, with the unsupported-language error, exactly when the language is unknown and the diagram has a class |
| `Generator.GenerateSupported` | src/models/code_generator.py:43-68 | for a supported language the output is the blocks in table order followed by the comments, joined by newlines |
| `Generator.BlocksPerDistinctName` | src/models/code_generator.py:5-53 | there is one block per distinct class name, in order of first occurrence, each formatting the last record with that name and its resolved parent |
| `Generator.BlocksThenComments` | src/models/code_generator.py:53-68 | when there are blocks and comments, the output is all blocks joined, one newline, then all comments joined |
| `Generator.EmptyDiagram` | src/models/code_generator.py:8-68 | no classes and no aggregation or dependency associations give the empty text for any language name |
| `Example.SampleParents` | src/models/code_generator.py:87-91 | in the sample diagram `a` has no parent and `b` has parent `a` |
| `Example.SampleComments` | src/models/code_generator.py:87-91 | the sample's comments are the aggregation of `b` by `a`, then the dependency of `b` on `a` |
| `Example.SampleOutput` | src/models/code_generator.py:72-92 | in every language the sample output is block `a`, block `b`, then the two comments |
| `Example.SamplePython` | src/models/code_generator.py:72-92 | the exact Python output of the sample diagram |
| `Example.SampleJava` | src/models/code_generator.py:72-92 | the exact Java output of the sample diagram |
| `Example.SamplePhp` | src/models/code_generator.py:72-92 | the exact PHP output of the sample diagram |

## Left out

- The Tkinter editor (`src/gui/uml_app.py`, `main.py`) is not modelled. It is window, dialog and drag handling with nothing to compute.
- Canvas drawing (`src/models/association_line.py`, `src/models/class_box.py`) is not modelled. It is floating-point geometry and widget layout.
- The module-level `print` calls after the sample diagram are output only. The unused `json` import is dropped.
- Records with missing keys, which raise `KeyError` in the code, are not modelled. The datatypes always carry every field.
- The canvas `position` of a class record is not modelled. The generator never reads it.
- Emitters.LinesNameTheirMembers: recovers each method stub from the list of stubs, not by splitting the joined block, because a Python stub spans two lines.
- Emitters.AttributeSectionLines: states the split-back property only for attribute names without newlines, because a name with a newline would not split back into one line. Emitters.BlockMembers states it under the same condition.
