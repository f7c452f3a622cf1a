/** A plain `&`/`=` reader of a URL's query: the text after the first `?`, split on `&`, each
    piece split at its first `=`. It neither ends the query at a `#` fragment nor
    percent-decodes the values. */
module QueryString {

  /** `s.split(sep)`: the pieces between separators; never empty. */
  function Split(s: string, sep: char): (r: seq<string>)
    ensures |r| >= 1
    decreases |s|
  {
    if s == [] then [[]]
    else if s[0] == sep then [[]] + Split(s[1..], sep)
    else
      var rest := Split(s[1..], sep);
      [[s[0]] + rest[0]] + rest[1..]
  }

  /** The text before the first `sep` and the text after it; all of `s` and "" without one. */
  function SplitFirst(s: string, sep: char): (r: (string, string))
    ensures sep !in r.0
    decreases |s|
  {
    if s == [] then ([], [])
    else if s[0] == sep then ([], s[1..])
    else
      var rest := SplitFirst(s[1..], sep);
      ([s[0]] + rest.0, rest.1)
  }

  /** The query parameters of a URL, in order. */
  function QueryParams(url: string): (r: seq<(string, string)>)
  {
    var pieces := Split(SplitFirst(url, '?').1, '&');
    seq(|pieces|, i requires 0 <= i < |pieces| => SplitFirst(pieces[i], '='))
  }

  lemma {:induction false} SplitNoSeparator(a: string, sep: char)
    requires sep !in a
    ensures Split(a, sep) == [a]
    decreases |a|
  {
    if a != [] {
      SplitNoSeparator(a[1..], sep);
      assert [a[0]] + a[1..] == a;
    }
  }

  /** Splitting at a separator that the leading piece does not contain. */
  lemma {:induction false} SplitAt(a: string, sep: char, b: string)
    requires sep !in a
    ensures Split(a + [sep] + b, sep) == [a] + Split(b, sep)
    decreases |a|
  {
    if a == [] {
      assert a + [sep] + b == [sep] + b;
      assert ([sep] + b)[1..] == b;
    } else {
      assert (a + [sep] + b)[0] == a[0];
      assert (a + [sep] + b)[1..] == a[1..] + [sep] + b;
      SplitAt(a[1..], sep, b);
      assert [a[0]] + a[1..] == a;
    }
  }

  lemma {:induction false} SplitFirstAt(a: string, sep: char, b: string)
    requires sep !in a
    ensures SplitFirst(a + [sep] + b, sep) == (a, b)
    decreases |a|
  {
    if a == [] {
      assert a + [sep] + b == [sep] + b;
      assert ([sep] + b)[1..] == b;
    } else {
      assert (a + [sep] + b)[0] == a[0];
      assert (a + [sep] + b)[1..] == a[1..] + [sep] + b;
      SplitFirstAt(a[1..], sep, b);
      assert [a[0]] + a[1..] == a;
    }
  }

  /** One parameter as `key=value`. */
  function Piece(p: (string, string)): string {
    p.0 + "=" + p.1
  }

  /** Parameters joined with `&`. */
  function Render(ps: seq<(string, string)>): string
    requires |ps| >= 1
    decreases |ps|
  {
    if |ps| == 1 then Piece(ps[0]) else Piece(ps[0]) + "&" + Render(ps[1..])
  }

  /** Keys hold neither `&` nor `=`, values no `&`: what a parameter needs to read back. */
  predicate Separable(ps: seq<(string, string)>) {
    forall i :: 0 <= i < |ps| ==> '&' !in ps[i].0 && '=' !in ps[i].0 && '&' !in ps[i].1
  }

  lemma PieceReadsBack(p: (string, string))
    requires '&' !in p.0 && '=' !in p.0 && '&' !in p.1
    ensures '&' !in Piece(p) && SplitFirst(Piece(p), '=') == p
  {
    assert Piece(p) == p.0 + ['='] + p.1;
    SplitFirstAt(p.0, '=', p.1);
  }

  lemma {:induction false} SplitRender(ps: seq<(string, string)>)
    requires |ps| >= 1 && Separable(ps)
    ensures Split(Render(ps), '&') == seq(|ps|, i requires 0 <= i < |ps| => Piece(ps[i]))
    decreases |ps|
  {
    PieceReadsBack(ps[0]);
    if |ps| == 1 {
      SplitNoSeparator(Piece(ps[0]), '&');
    } else {
      assert Separable(ps[1..]) by {
        forall i | 0 <= i < |ps[1..]| ensures '&' !in ps[1..][i].0 && '=' !in ps[1..][i].0 && '&' !in ps[1..][i].1 {
          assert ps[1..][i] == ps[i + 1];
        }
      }
      SplitRender(ps[1..]);
      assert Render(ps) == Piece(ps[0]) + ['&'] + Render(ps[1..]);
      SplitAt(Piece(ps[0]), '&', Render(ps[1..]));
    }
  }

  /** Well-separated parameters after the first `?` read back as exactly themselves, in order. */
  lemma QueryOfRender(base: string, ps: seq<(string, string)>)
    requires '?' !in base
    requires |ps| >= 1 && Separable(ps)
    ensures QueryParams(base + "?" + Render(ps)) == ps
  {
    assert base + "?" + Render(ps) == base + ['?'] + Render(ps);
    SplitFirstAt(base, '?', Render(ps));
    SplitRender(ps);
    forall i | 0 <= i < |ps| ensures SplitFirst(Piece(ps[i]), '=') == ps[i] {
      PieceReadsBack(ps[i]);
    }
  }
}
