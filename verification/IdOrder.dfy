/** The order in which the datastore sorts identifiers. */
module IdOrder {

  /** Lexicographic order. */
  predicate Before(a: string, b: string) {
    b != "" && (a == "" || a[0] < b[0] || (a[0] == b[0] && Before(a[1..], b[1..])))
  }

  lemma {:induction false} BeforeTotal(a: string, b: string)
    ensures a == b || Before(a, b) || Before(b, a)
  {
    if a != "" && b != "" && a[0] == b[0] {
      BeforeTotal(a[1..], b[1..]);
      assert a == [a[0]] + a[1..] && b == [b[0]] + b[1..];
    }
  }

  lemma {:induction false} BeforeTransitive(a: string, b: string, c: string)
    requires Before(a, b) && Before(b, c)
    ensures Before(a, c)
  {
    if a != "" && a[0] == b[0] && b[0] == c[0] { BeforeTransitive(a[1..], b[1..], c[1..]); }
  }

  lemma {:induction false} BeforeStrict(a: string)
    ensures !Before(a, a)
  {
    if a != "" { BeforeStrict(a[1..]); }
  }

  ghost predicate IsLeast(ids: set<string>, least: string) {
    least in ids && forall y :: y in ids ==> y == least || Before(least, y)
  }

  method Least(ids: set<string>) returns (least: string)
    requires ids != {}
    ensures IsLeast(ids, least)
  {
    least :| least in ids;
    var rest := ids - {least};
    while rest != {}
      invariant rest <= ids && least in ids && least !in rest
      invariant forall y :: y in ids - rest ==> y == least || Before(least, y)
      decreases |rest|
    {
      var y :| y in rest;
      BeforeTotal(least, y);
      if Before(y, least) {
        forall z | z in ids - rest && z != least ensures Before(y, z) { BeforeTransitive(y, least, z); }
        least := y;
      }
      rest := rest - {y};
    }
  }

  /** The first n of the ids in order, or all of them. */
  ghost predicate IsPage(ids: set<string>, n: nat, page: seq<string>) {
    && |page| <= n
    && (forall i :: 0 <= i < |page| ==> page[i] in ids)
    && (forall i, j :: 0 <= i < j < |page| ==> Before(page[i], page[j]))
    && (forall y :: y in ids && y !in page ==> |page| == n && forall i :: 0 <= i < |page| ==> Before(page[i], y))
  }

  method FirstPage(ids: set<string>, n: nat) returns (page: seq<string>)
    ensures IsPage(ids, n, page)
  {
    page := [];
    var rest := ids;
    while rest != {} && |page| < n
      invariant rest <= ids && |page| <= n
      invariant forall y :: y in ids <==> y in rest || y in page
      invariant forall i :: 0 <= i < |page| ==> page[i] in ids
      invariant forall i, j :: 0 <= i < j < |page| ==> Before(page[i], page[j])
      invariant forall i, y :: 0 <= i < |page| && y in rest ==> Before(page[i], y)
      decreases |rest|
    {
      var least := Least(rest);
      page := page + [least];
      rest := rest - {least};
    }
  }
}
