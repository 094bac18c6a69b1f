/** The diagram data the code generator consumes: class records, typed
    associations between classes, and the generator's one failure. */
module Uml {

  datatype Option<+T> = None | Some(value: T)

  /** The generator's only failure: formatting a class for a language that
      has no emitter (`ValueError("Unsupported language")`). */
  datatype Error = UnsupportedLanguage

  datatype Result<+T> = Ok(value: T) | Err(error: Error)

  /** One class record of the diagram; its canvas position is not read by
      the generator and is not modelled. */
  datatype Cls = Cls(name: string, attributes: seq<string>, methods: seq<string>)

  /** One association record. `kind` stays a string, as in the diagram data:
      the generator compares it against fixed names, and kinds it does not
      know (such as "association" or "composition") fall through silently. */
  datatype Assoc = Assoc(kind: string, from: string, to: string)

  /** The whole diagram: class records in list order, associations in list order. */
  datatype Diagram = Diagram(classes: seq<Cls>, associations: seq<Assoc>)

  const Inheritance: string := "inheritance"
  const Aggregation: string := "aggregation"
  const Dependency: string := "dependency"
}
