/** The RDF values the driver handles, as Sesame's value implementations present them. */
module Rdf {
  import opened Wrappers

  /** An RDF term: an IRI (Sesame's URI), a blank node or a literal. */
  datatype Value = Iri(iri: string) | BNode(id: string) | Literal(lexical: string)

  /** A graph context; None stands for Java's null, the default graph. */
  type Context = Option<Value>

  /** One statement of the write cache's Model: subject, predicate, object and context. */
  datatype Quad = Quad(subj: Value, pred: Value, obj: Value, ctx: Context)

  /** The IRI MarkLogic uses for the default graph. */
  const DefaultGraphUri: string := "http://marklogic.com/semantics#default-graph"

  /** `toString()`: IRIs print as themselves, blank nodes as "_:" followed by their id, literals quoted. */
  function ToString(v: Value): string
  {
    match v
    case Iri(s) => s
    case BNode(id) => "_:" + id
    case Literal(l) => "\"" + l + "\""
  }

  /** `stringValue()`: the IRI, the blank node's id, or the literal's lexical form. */
  function StringValue(v: Value): string
  {
    match v
    case Iri(s) => s
    case BNode(id) => id
    case Literal(l) => l
  }
}
