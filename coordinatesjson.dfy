/** `Coordinates.UnmarshalJSON` of goeonet.go: the coordinate array of a
    geometry is decoded by rewriting its text rather than by parsing JSON.
    Four deletions (spaces, `],`, `]`, `[[`), dropping the first character,
    splitting on `[` and then on `,` turn every shape into rows of two numbers. */
module CoordinatesJson {
  import opened Wrappers
  import opened Transport
  import opened GoStrings

  /** `strconv.ParseFloat(token, 64)`: a number, or None for a rejected token. */
  type ParseFloat = string -> Option<real>

  /** The number kept for a token: a rejected token counts as 0, the value
      ParseFloat returns alongside its error. */
  function ParseOrZero(parse: ParseFloat, token: string): (v: real)
    ensures parse(token).Some? ==> v == parse(token).value
    ensures parse(token).None? ==> v == 0.0
  {
    parse(token).GetOr(0.0)
  }

  /** The text after the four deletions. */
  function Normalise(data: string): string {
    RemoveAll(RemoveAll(RemoveAll(RemoveAll(data, " "), "],"), "]"), "[[")
  }

  /** The `[`-separated pieces of the normalised text after its first character. */
  function Pieces(data: string): seq<string>
    requires |Normalise(data)| >= 1
  {
    Split(Normalise(data)[1..], '[')
  }

  /** What the decoder needs not to panic: a non-empty normalised text, and a
      comma in every piece, so that both fields exist. */
  predicate Decodable(data: string) {
    |Normalise(data)| >= 1 && forall p :: p in Pieces(data) ==> ',' in p
  }

  /** The row made from one piece: its first two comma-separated fields. */
  function Row(piece: string, parse: ParseFloat): (row: seq<real>)
    requires ',' in piece
    ensures |row| == 2
    ensures |Split(piece, ',')| >= 2
    ensures row[0] == ParseOrZero(parse, Split(piece, ',')[0])
    ensures row[1] == ParseOrZero(parse, Split(piece, ',')[1])
  {
    SplitPresent(piece, ',');
    var fields := Split(piece, ',');
    [ParseOrZero(parse, fields[0]), ParseOrZero(parse, fields[1])]
  }

  /** The rows the decoder produces: one per piece, in order. */
  function Rows(data: string, parse: ParseFloat): (rows: seq<seq<real>>)
    requires Decodable(data)
    ensures |rows| == |Pieces(data)|
    ensures forall i :: 0 <= i < |rows| ==> |rows[i]| == 2
  {
    var pieces := Pieces(data);
    seq(|pieces|, i requires 0 <= i < |pieces| => Row(pieces[i], parse))
  }

  class Coordinates {
    var coordinates: seq<seq<real>>

    constructor ()
      ensures coordinates == []
    {
      coordinates := [];
    }

    /** Replace the rows by those decoded from `data`; the error is always nil. */
    method UnmarshalJSON(data: string, parse: ParseFloat) returns (err: Option<Error>)
      requires Decodable(data)
      modifies this
      ensures err == None
      ensures coordinates == Rows(data, parse)
    {
      var dataString := RemoveAll(data, " ");
      dataString := RemoveAll(dataString, "],");
      dataString := RemoveAll(dataString, "]");
      dataString := RemoveAll(dataString, "[[");
      var pieces := Split(dataString[1..], '[');
      var rows: seq<seq<real>> := [];
      for i := 0 to |pieces|
        invariant |rows| == i
        invariant forall j :: 0 <= j < i ==> rows[j] == Row(pieces[j], parse)
      {
        assert pieces[i] in pieces;
        SplitPresent(pieces[i], ',');
        var split := Split(pieces[i], ',');
        var coord1 := ParseOrZero(parse, split[0]);
        var coord2 := ParseOrZero(parse, split[1]);
        rows := rows + [[coord1, coord2]];
      }
      coordinates := rows;
      err := None;
    }
  }

  // ---------------------------------------------------------------------
  // Shapes of the input text

  /** A number token as the decoder sees it: none of the characters it cuts on. */
  predicate IsToken(t: string) {
    forall c :: c in t ==> c != ' ' && c != '[' && c != ']' && c != ','
  }

  datatype Pair = Pair(x: string, y: string)

  predicate Tokens(ps: seq<Pair>) {
    forall i :: 0 <= i < |ps| ==> IsToken(ps[i].x) && IsToken(ps[i].y)
  }

  /** `x,y` */
  function Body(p: Pair): string {
    p.x + "," + p.y
  }

  /** `[x,y]` */
  function PairText(p: Pair): string {
    "[" + Body(p) + "]"
  }

  /** `[x1,y1],[x2,y2],...,[xn,yn]` */
  function RingText(ps: seq<Pair>): string
    requires |ps| >= 1
    decreases |ps|
  {
    "[" + Body(ps[0]) + (if |ps| == 1 then "]" else "]," + RingText(ps[1..]))
  }

  /** `[x1,y1[x2,y2...[xn,yn`: a ring once every `]` and `],` is gone. */
  function OpenPairs(ps: seq<Pair>): string
    decreases |ps|
  {
    if |ps| == 0 then "" else "[" + Body(ps[0]) + OpenPairs(ps[1..])
  }

  function Bodies(ps: seq<Pair>): (bs: seq<string>)
    ensures |bs| == |ps|
  {
    seq(|ps|, i requires 0 <= i < |ps| => Body(ps[i]))
  }

  /** The row the decoder should give for a pair. */
  function PairRow(p: Pair, parse: ParseFloat): seq<real> {
    [ParseOrZero(parse, p.x), ParseOrZero(parse, p.y)]
  }

  function PairRows(ps: seq<Pair>, parse: ParseFloat): seq<seq<real>> {
    seq(|ps|, i requires 0 <= i < |ps| => PairRow(ps[i], parse))
  }

  // ---------------------------------------------------------------------
  // How each deletion acts on those shapes

  lemma {:induction false} RingChars(ps: seq<Pair>)
    requires |ps| >= 1 && Tokens(ps)
    ensures ' ' !in RingText(ps)
    decreases |ps|
  {
    if |ps| > 1 {
      RingChars(ps[1..]);
    }
  }

  lemma {:induction false} OpenPairsChars(ps: seq<Pair>)
    requires Tokens(ps)
    ensures ']' !in OpenPairs(ps)
    decreases |ps|
  {
    if |ps| > 0 {
      OpenPairsChars(ps[1..]);
    }
  }

  /** The first pair of a token list and the rest are tokens too. */
  lemma TokensTail(ps: seq<Pair>)
    requires |ps| >= 1 && Tokens(ps)
    ensures IsToken(ps[0].x) && IsToken(ps[0].y) && Tokens(ps[1..])
  {
    assert forall i :: 0 <= i < |ps| - 1 ==> ps[1..][i] == ps[i + 1];
  }

  /** A pair body holds no bracket or space, and it is never empty. */
  lemma BodyChars(p: Pair)
    requires IsToken(p.x) && IsToken(p.y)
    ensures |Body(p)| >= 1
    ensures '[' !in Body(p) && ']' !in Body(p) && ' ' !in Body(p)
  {
    assert Body(p) == p.x + [','] + p.y;
  }

  /** A leading occurrence is deleted and the scan goes on after it. */
  lemma LeadingRemoved(pat: string, r: string)
    requires |pat| >= 1
    ensures RemoveAll(pat + r, pat) == RemoveAll(r, pat)
  {
    assert (pat + r)[..|pat|] == pat && (pat + r)[|pat|..] == r;
  }

  /** Deleting `],` from a ring leaves the open pairs and the final `]`. */
  lemma {:induction false} RingCloseRemoved(ps: seq<Pair>)
    requires |ps| >= 1 && Tokens(ps)
    ensures RemoveAll(RingText(ps), "],") == OpenPairs(ps) + "]"
    decreases |ps|
  {
    TokensTail(ps);
    BodyChars(ps[0]);
    var body := Body(ps[0]);
    var a := "[" + body;
    assert a[|a| - 1] == body[|body| - 1] && body[|body| - 1] in body;
    assert ']' !in a;
    RemoveAllAbsent(a, "],");
    assert OpenPairs(ps) == a + OpenPairs(ps[1..]);
    if |ps| == 1 {
      assert RingText(ps) == a + "]";
      RemoveAllConcat(a, "]", "],");
    } else {
      var rest := RingText(ps[1..]);
      assert RingText(ps) == a + ("]," + rest);
      RemoveAllConcat(a, "]," + rest, "],");
      LeadingRemoved("],", rest);
      RingCloseRemoved(ps[1..]);
    }
  }

  /** Open pairs hold no `[[`, so its deletion leaves them as they are. */
  lemma {:induction false} OpenPairsNoDouble(ps: seq<Pair>)
    requires Tokens(ps)
    ensures RemoveAll(OpenPairs(ps), "[[") == OpenPairs(ps)
    decreases |ps|
  {
    if |ps| > 0 {
      TokensTail(ps);
      BodyChars(ps[0]);
      var b := Body(ps[0]);
      var c := OpenPairs(ps[1..]);
      assert b[0] in b && b[|b| - 1] in b;
      assert OpenPairs(ps) == "[" + (b + c);
      RemoveAllConcat("[", b + c, "[[");
      RemoveAllConcat(b, c, "[[");
      RemoveAllAbsent(b, "[[");
      OpenPairsNoDouble(ps[1..]);
    }
  }

  /** Open pairs after their first character are the pair bodies joined by `[`. */
  lemma {:induction false} OpenPairsJoin(ps: seq<Pair>)
    requires |ps| >= 1
    ensures OpenPairs(ps)[1..] == Join(Bodies(ps), '[')
    decreases |ps|
  {
    if |ps| > 1 {
      OpenPairsJoin(ps[1..]);
      assert Bodies(ps)[1..] == Bodies(ps[1..]);
      var rest := OpenPairs(ps[1..]);
      assert rest == [rest[0]] + rest[1..];
    }
  }

  /** With the first character dropped, a text whose rest is the pair bodies
      joined by `[` decodes to one row per pair. */
  lemma {:induction false} JoinedBodiesRows(data: string, ps: seq<Pair>, parse: ParseFloat)
    requires |ps| >= 1 && Tokens(ps)
    requires |Normalise(data)| >= 1 && Normalise(data)[1..] == Join(Bodies(ps), '[')
    ensures Decodable(data)
    ensures Rows(data, parse) == PairRows(ps, parse)
  {
    var bs := Bodies(ps);
    forall b | b in bs
      ensures '[' !in b && ',' in b
    {
      var i :| 0 <= i < |bs| && bs[i] == b;
      assert b == ps[i].x + "," + ps[i].y;
    }
    SplitJoin(bs, '[');
    forall i | 0 <= i < |ps|
      ensures Row(bs[i], parse) == PairRow(ps[i], parse)
    {
      assert bs[i] == ps[i].x + [','] + ps[i].y;
      SplitFirst(ps[i].x, ',', ps[i].y);
      SplitAbsent(ps[i].y, ',');
    }
  }

  /** Text without commas is left alone by the deletion of `],`. */
  lemma {:induction false} NoCommaKept(s: string)
    requires ',' !in s
    ensures RemoveAll(s, "],") == s
    decreases |s|
  {
    if |s| >= 2 {
      assert s[1] in s;
      assert s[..2] != "],";
      NoCommaKept(s[1..]);
      assert s == [s[0]] + s[1..];
    }
  }

  /** Text made only of `]` vanishes when `]` is deleted. */
  lemma {:induction false} ClosersGone(s: string)
    requires forall c :: c in s ==> c == ']'
    ensures RemoveAll(s, "]") == ""
    decreases |s|
  {
    if |s| >= 1 {
      assert s[0] in s;
      assert s[..1] == "]";
      assert forall c :: c in s[1..] ==> c in s;
      ClosersGone(s[1..]);
    }
  }

  /** First deletion: a ring between brackets holds no space. */
  lemma {:induction false} RingStage1(pre: string, ps: seq<Pair>, post: string)
    requires |ps| >= 1 && Tokens(ps)
    requires forall c :: c in pre ==> c == '['
    requires forall c :: c in post ==> c == ']'
    ensures RemoveAll(pre + RingText(ps) + post, " ") == pre + RingText(ps) + post
  {
    RingChars(ps);
    assert ' ' !in pre + RingText(ps) + post;
    RemoveAllAbsent(pre + RingText(ps) + post, " ");
  }

  /** Opening brackets in front of a text change nothing about deleting `],`. */
  lemma OpenersKept(pre: string, t: string)
    requires forall c :: c in pre ==> c == '['
    ensures RemoveAll(pre + t, "],") == pre + RemoveAll(t, "],")
  {
    assert pre == [] || pre[|pre| - 1] in pre;
    RemoveAllConcat(pre, t, "],");
    RemoveAllAbsent(pre, "],");
  }

  /** Second deletion: every `],` goes, only the ring's final `]` stays. */
  lemma {:induction false} RingStage2(pre: string, ps: seq<Pair>, post: string)
    requires |ps| >= 1 && Tokens(ps)
    requires forall c :: c in pre ==> c == '['
    requires forall c :: c in post ==> c == ']'
    ensures RemoveAll(pre + RingText(ps) + post, "],") == pre + OpenPairs(ps) + "]" + post
  {
    var ring := RingText(ps);
    assert pre + ring + post == pre + (ring + post);
    OpenersKept(pre, ring + post);
    assert post == [] || post[0] in post;
    RemoveAllConcat(ring, post, "],");
    NoCommaKept(post);
    RingCloseRemoved(ps);
  }

  /** Third deletion: with `]` gone only the opening text and the open pairs remain. */
  lemma {:induction false} RingStage3(pre: string, ps: seq<Pair>, post: string)
    requires Tokens(ps)
    requires forall c :: c in pre ==> c == '['
    requires forall c :: c in post ==> c == ']'
    ensures RemoveAll(pre + OpenPairs(ps) + "]" + post, "]") == pre + OpenPairs(ps)
  {
    var open := OpenPairs(ps);
    OpenPairsChars(ps);
    assert pre + open + "]" + post == (pre + open) + ("]" + post);
    RemoveAllConcat(pre + open, "]" + post, "]");
    assert ']' !in pre + open;
    RemoveAllAbsent(pre + open, "]");
    ClosersGone("]" + post);
  }

  /** The normalised text of a ring between `pre` and `post`, before the `[[` deletion. */
  lemma RingNormalise(pre: string, ps: seq<Pair>, post: string)
    requires |ps| >= 1 && Tokens(ps)
    requires forall c :: c in pre ==> c == '['
    requires forall c :: c in post ==> c == ']'
    ensures Normalise(pre + RingText(ps) + post) == RemoveAll(pre + OpenPairs(ps), "[[")
  {
    RingStage1(pre, ps, post);
    RingStage2(pre, ps, post);
    RingStage3(pre, ps, post);
  }

  // ---------------------------------------------------------------------
  // What the decoder produces

  /** A point `[x,y]` gives the single row `[x, y]`. */
  lemma {:induction false} PointRows(p: Pair, parse: ParseFloat)
    requires IsToken(p.x) && IsToken(p.y)
    ensures Decodable(PairText(p))
    ensures Rows(PairText(p), parse) == [PairRow(p, parse)]
  {
    var ps := [p];
    assert "" + RingText(ps) + "" == PairText(p);
    RingNormalise("", ps, "");
    assert "" + OpenPairs(ps) == OpenPairs(ps);
    OpenPairsNoDouble(ps);
    OpenPairsJoin(ps);
    JoinedBodiesRows(PairText(p), ps, parse);
  }

  /** A polygon of one ring `[[[x1,y1],...,[xn,yn]]]` gives its n pairs as rows, in order. */
  lemma {:induction false} PolygonRows(ps: seq<Pair>, parse: ParseFloat)
    requires |ps| >= 1 && Tokens(ps)
    ensures Decodable("[[" + RingText(ps) + "]]")
    ensures Rows("[[" + RingText(ps) + "]]", parse) == PairRows(ps, parse)
  {
    var data := "[[" + RingText(ps) + "]]";
    var s3 := "[[" + OpenPairs(ps);
    RingNormalise("[[", ps, "]]");
    assert s3[..2] == "[[" && s3[2..] == OpenPairs(ps);
    OpenPairsNoDouble(ps);
    OpenPairsJoin(ps);
    JoinedBodiesRows(data, ps, parse);
  }

  /** Deleting `[[` from `[` and open pairs takes the opening bracket of the
      first pair with it. */
  lemma {:induction false} NestedStage4(ps: seq<Pair>)
    requires |ps| >= 1 && Tokens(ps)
    ensures RemoveAll("[" + OpenPairs(ps), "[[") == Body(ps[0]) + OpenPairs(ps[1..])
  {
    var b := Body(ps[0]);
    var c := OpenPairs(ps[1..]);
    var s3 := "[" + OpenPairs(ps);
    assert s3[..2] == "[[" && s3[2..] == b + c;
    assert IsToken(ps[0].x) && IsToken(ps[0].y);
    assert b[|b| - 1] in b;
    RemoveAllConcat(b, c, "[[");
    RemoveAllAbsent(b, "[[");
    assert Tokens(ps[1..]);
    OpenPairsNoDouble(ps[1..]);
  }

  /** Dropping the first character of the first pair's body gives the pairs
      with that character taken off `x1`. */
  lemma {:induction false} NestedShift(ps: seq<Pair>)
    requires |ps| >= 1 && Tokens(ps) && |ps[0].x| >= 1
    ensures Tokens(ps[0 := Pair(ps[0].x[1..], ps[0].y)])
    ensures (Body(ps[0]) + OpenPairs(ps[1..]))[1..]
         == OpenPairs(ps[0 := Pair(ps[0].x[1..], ps[0].y)])[1..]
  {
    var qs := ps[0 := Pair(ps[0].x[1..], ps[0].y)];
    assert IsToken(ps[0].x);
    assert forall c :: c in ps[0].x[1..] ==> c in ps[0].x;
    assert qs[1..] == ps[1..];
    assert OpenPairs(qs) == "[" + Body(qs[0]) + OpenPairs(ps[1..]);
  }

  /** A list of pairs with one level less, `[[x1,y1],...,[xn,yn]]`, loses the
      first character of `x1`: after `[[` is deleted, the first character the
      decoder drops is that one instead of an opening bracket. */
  lemma {:induction false} NestedRows(ps: seq<Pair>, parse: ParseFloat)
    requires |ps| >= 1 && Tokens(ps) && |ps[0].x| >= 1
    ensures Decodable("[" + RingText(ps) + "]")
    ensures Rows("[" + RingText(ps) + "]", parse)
         == PairRows(ps[0 := Pair(ps[0].x[1..], ps[0].y)], parse)
  {
    var data := "[" + RingText(ps) + "]";
    RingNormalise("[", ps, "]");
    NestedStage4(ps);
    NestedShift(ps);
    var qs := ps[0 := Pair(ps[0].x[1..], ps[0].y)];
    OpenPairsJoin(qs);
    JoinedBodiesRows(data, qs, parse);
  }

  /** No space and no closing bracket survives the four deletions. */
  lemma {:induction false} NormaliseChars(data: string)
    ensures ' ' !in Normalise(data) && ']' !in Normalise(data)
  {
    var s1 := RemoveAll(data, " ");
    var s2 := RemoveAll(s1, "],");
    var s3 := RemoveAll(s2, "]");
    RemoveCharGone(data, ' ');
    RemoveAllChars(s1, "],");
    RemoveCharGone(s2, ']');
    RemoveAllChars(s2, "]");
    RemoveAllChars(s3, "[[");
  }

  /** Spaces never matter: the decoder deletes them first. */
  lemma SpacesIgnored(data: string, parse: ParseFloat)
    ensures Normalise(RemoveAll(data, " ")) == Normalise(data)
    ensures Decodable(RemoveAll(data, " ")) <==> Decodable(data)
    ensures Decodable(data) ==> Rows(RemoveAll(data, " "), parse) == Rows(data, parse)
  {
    RemoveCharIdempotent(data, ' ');
  }

  /** The geometry `[[10.5,20.1]]` (or, by SpacesIgnored, `[[10.5, 20.1]]`)
      decodes to the row `[0.5, 20.1]`: the leading `1` is lost, as NestedRows says. */
  lemma {:induction false} NestedExample(parse: ParseFloat)
    ensures Decodable("[[10.5,20.1]]")
    ensures Rows("[[10.5,20.1]]", parse)
         == [[ParseOrZero(parse, "0.5"), ParseOrZero(parse, "20.1")]]
  {
    var ps := [Pair("10.5", "20.1")];
    assert "[[10.5,20.1]]" == "[" + RingText(ps) + "]";
    assert Tokens(ps);
    NestedRows(ps, parse);
    assert ps[0 := Pair(ps[0].x[1..], ps[0].y)] == [Pair("0.5", "20.1")];
  }
}
