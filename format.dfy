/**
 * String formatting as the binaries use it through `format!`, `write!` and
 * `println!`: a template is a sequence of literal text and placeholders, and
 * rendering substitutes each placeholder by its argument. The macros resolve a
 * named placeholder such as `{channel}` to a position in the argument list when
 * the program is compiled; a hole here is that position.
 */
module Format {
  import opened Sequences

  datatype Piece = Lit(text: string) | Hole(index: nat)

  /** Every hole has an argument (the macros reject a template otherwise). */
  predicate Closed(pieces: seq<Piece>, args: seq<string>)
  {
    forall i :: 0 <= i < |pieces| && pieces[i].Hole? ==> pieces[i].index < |args|
  }

  /** The text one piece stands for. */
  function Text(p: Piece, args: seq<string>): string
    requires p.Hole? ==> p.index < |args|
  {
    match p
    case Lit(text) => text
    case Hole(index) => args[index]
  }

  function Render(pieces: seq<Piece>, args: seq<string>): (r: string)
    requires Closed(pieces, args)
  {
    if pieces == [] then [] else Text(pieces[0], args) + Render(pieces[1..], args)
  }

  /** Rendering a suffix of a template: its first piece, then the rest. */
  lemma RenderFrom(pieces: seq<Piece>, i: nat, args: seq<string>)
    requires i < |pieces| && Closed(pieces, args)
    ensures Closed(pieces[i..], args) && Closed(pieces[i + 1..], args)
    ensures Render(pieces[i..], args) == Text(pieces[i], args) + Render(pieces[i + 1..], args)
  {
    assert pieces[i..][0] == pieces[i];
    assert pieces[i..][1..] == pieces[i + 1..];
  }

  /** A three-piece template renders to the texts of its pieces, in order. */
  lemma RenderTriple(t: seq<Piece>, args: seq<string>)
    requires |t| == 3 && Closed(t, args)
    ensures Render(t, args) == Text(t[0], args) + Text(t[1], args) + Text(t[2], args)
  {
    assert t[3..] == [];
    RenderFrom(t, 2, args);
    RenderFrom(t, 1, args);
    RenderFrom(t, 0, args);
    assert t[0..] == t;
    ConcatAssoc(Text(t[0], args), Text(t[1], args), Text(t[2], args));
  }
}
