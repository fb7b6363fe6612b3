/** The confirmation dialogs' copy is written as templates of fixed text and
    interpolated values (`Text.Piece`), so that which sentence appears, and
    which value is named, can be stated apart from what the values contain. */
module DialogCopy {
  import opened Text

  /** The irreversibility sentence. */
  const Irreversible: string := "This action cannot be undone."

  /** The copy carries the irreversibility sentence. */
  predicate Warns(ps: seq<Piece>) {
    Fixed(Irreversible) in ps
  }

  /** The copy interpolates `v`. */
  predicate Names(ps: seq<Piece>, v: string) {
    Value(v) in ps
  }

  /** A value the copy interpolates appears in the rendered string. */
  lemma {:induction false} NamedIsRendered(ps: seq<Piece>, v: string)
    requires Names(ps, v)
    ensures Contains(Render(ps), v)
  {
    var k :| 0 <= k < |ps| && ps[k] == Value(v);
    RenderContains(ps, k);
  }

  /** So does a warning. */
  lemma {:induction false} WarningIsRendered(ps: seq<Piece>)
    requires Warns(ps)
    ensures Contains(Render(ps), Irreversible)
  {
    var k :| 0 <= k < |ps| && ps[k] == Fixed(Irreversible);
    RenderContains(ps, k);
  }
}
