/**
 * The payload rule of both local-bus subscribers: data that already parses as
 * JSON is forwarded unchanged, anything else is replaced by its JSON string form.
 * The JSON library itself is not part of this model: `parses` stands for
 * "`json::parse` returns Ok" and `stringify` for `json::stringify`.
 */
module Json {

  function Normalize(data: string, parses: string -> bool, stringify: string -> string): string
  {
    if parses(data) then data else stringify(data)
  }

  /** The data is replaced by its stringified form exactly when it does not parse, and
      is otherwise passed through unchanged. */
  lemma NormalizeReplacesOnlyUnparsed(data: string, parses: string -> bool, stringify: string -> string)
    ensures parses(data) ==> Normalize(data, parses, stringify) == data
    ensures !parses(data) ==> Normalize(data, parses, stringify) == stringify(data)
    ensures Normalize(data, parses, stringify) != data ==> !parses(data)
  {
  }

  /** When stringifying always yields valid JSON (as a JSON string literal does), the
      forwarded payload always parses, and normalizing twice changes nothing more. */
  lemma NormalizeYieldsJson(data: string, parses: string -> bool, stringify: string -> string)
    requires forall s :: parses(stringify(s))
    ensures parses(Normalize(data, parses, stringify))
    ensures Normalize(Normalize(data, parses, stringify), parses, stringify) == Normalize(data, parses, stringify)
  {
  }
}
