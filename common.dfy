/** Errors and collection predicates shared by Builder.ts and Gremlin.ts. */
module Common {

  /** The errors the builders throw, one constructor per message template. */
  datatype Error =
    | DuplicateAlias(alias: string)
    | AliasNotFound(alias: string)
    | EdgeNotFound(edge: string)
    | InvalidAndInput
    | PartsNotArray
    | KeysNotArray

  /** The text of the `Error` the source throws. */
  function Message(e: Error): string {
    match e
    case DuplicateAlias(a) => "Alias '" + a + "' is already defined"
    case AliasNotFound(a) => "Alias '" + a + "' was not found"
    case EdgeNotFound(x) => "Edge '" + x + "' was not found"
    case InvalidAndInput => "[and()] Input must be undefined, a function, or an array of functions"
    case PartsNotArray => "Parts must be an array"
    case KeysNotArray => "Keys must be an array or undefined"
  }

  /** No name occurs twice. */
  predicate Distinct(s: seq<string>) {
    forall i, j :: 0 <= i < j < |s| ==> s[i] != s[j]
  }
}
