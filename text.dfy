/** The string operations `addPrompt` and `createProject` apply to form input:
    JavaScript's `String.prototype.trim`, `split(',')`, and the tag pipeline
    `value.trim().split(',').map(tag => tag.trim()).filter(tag => tag)`. */
module Text {
  import opened Seqs

  /** ECMAScript WhiteSpace and LineTerminator code points, the set `trim` removes. */
  predicate IsWhiteSpace(c: char) {
    c == '\t' || c == '\n' || c == '\U{000B}' || c == '\U{000C}' || c == '\r' ||
    c == ' ' || c == '\U{00A0}' || c == '\U{1680}' || ('\U{2000}' <= c <= '\U{200A}') ||
    c == '\U{2028}' || c == '\U{2029}' || c == '\U{202F}' || c == '\U{205F}' ||
    c == '\U{3000}' || c == '\U{FEFF}'
  }

  /** `s` without its leading white space. */
  function TrimStart(s: string): (r: string)
    ensures |r| <= |s| && r == s[|s| - |r|..]
    ensures forall k :: 0 <= k < |s| - |r| ==> IsWhiteSpace(s[k])
    ensures r != [] ==> !IsWhiteSpace(r[0])
  {
    if s != [] && IsWhiteSpace(s[0]) then TrimStart(s[1..]) else s
  }

  /** `s` without its trailing white space. */
  function TrimEnd(s: string): (r: string)
    ensures |r| <= |s| && r == s[..|r|]
    ensures forall k :: |r| <= k < |s| ==> IsWhiteSpace(s[k])
    ensures r != [] ==> !IsWhiteSpace(r[|r| - 1])
  {
    if s != [] && IsWhiteSpace(s[|s| - 1]) then TrimEnd(s[..|s| - 1]) else s
  }

  /** `s.trim()`: neither end of the result is white space. */
  function Trim(s: string): (r: string)
    ensures r == [] || (!IsWhiteSpace(r[0]) && !IsWhiteSpace(r[|r| - 1]))
  {
    var t := TrimStart(s);
    var r := TrimEnd(t);
    assert r != [] ==> r[0] == t[0];
    r
  }

  /** Trim removes exactly the white space at both ends: the result is the
      slice `s[i..j]` and everything outside it is white space. */
  lemma {:induction false} TrimIsSlice(s: string) returns (i: nat, j: nat)
    ensures i <= j <= |s| && Trim(s) == s[i..j]
    ensures forall k :: 0 <= k < i ==> IsWhiteSpace(s[k])
    ensures forall k :: j <= k < |s| ==> IsWhiteSpace(s[k])
  {
    var t := TrimStart(s);
    i := |s| - |t|;
    j := i + |TrimEnd(t)|;
    forall k | j <= k < |s| ensures IsWhiteSpace(s[k]) {
      assert s[k] == t[k - i];
    }
  }

  /** Trim adds no character: whatever is in the result was in the input. */
  lemma {:induction false} TrimKeepsChars(s: string, c: char)
    ensures c in Trim(s) ==> c in s
  {
    var i, j := TrimIsSlice(s);
    if c in Trim(s) {
      var k :| i <= k < j && s[k] == c;
    }
  }

  /** A string with no white space at either end is its own trim. */
  lemma {:induction false} TrimOfTrimmed(s: string)
    requires s == [] || (!IsWhiteSpace(s[0]) && !IsWhiteSpace(s[|s| - 1]))
    ensures Trim(s) == s
  {
    assert TrimStart(s) == s;
    assert TrimEnd(s) == s;
  }

  /** Trimming twice is trimming once. */
  lemma {:induction false} TrimIdempotent(s: string)
    ensures Trim(Trim(s)) == Trim(s)
  {
    TrimOfTrimmed(Trim(s));
  }

  /** `s.split(',')`: the pieces between commas, at least one. */
  function Split(s: string): (r: seq<string>)
    ensures |r| >= 1
    ensures forall k :: 0 <= k < |r| ==> ',' !in r[k]
  {
    if s == [] then [""]
    else
      var rest := Split(s[1..]);
      if s[0] == ',' then [""] + rest else [[s[0]] + rest[0]] + rest[1..]
  }

  /** `pieces.join(',')`. */
  function Join(pieces: seq<string>): string {
    if |pieces| == 0 then ""
    else if |pieces| == 1 then pieces[0]
    else pieces[0] + "," + Join(pieces[1..])
  }

  lemma {:induction false} JoinCons(c: char, pieces: seq<string>)
    requires |pieces| >= 1
    ensures Join([[c] + pieces[0]] + pieces[1..]) == [c] + Join(pieces)
  {
    var head := [c] + pieces[0];
    var tail := pieces[1..];
    var p := [head] + tail;
    assert |p| == |pieces| && p[0] == head && p[1..] == tail;
    if |pieces| > 1 {
      var rest := Join(tail);
      assert Join(p) == head + "," + rest;
      assert Join(pieces) == pieces[0] + "," + rest;
      assert head + "," + rest == [c] + (pieces[0] + "," + rest);
    }
  }

  /** Splitting loses nothing: joining the pieces gives back the input. */
  lemma {:induction false} JoinSplit(s: string)
    ensures Join(Split(s)) == s
  {
    if s != [] {
      JoinSplit(s[1..]);
      var rest := Split(s[1..]);
      if s[0] == ',' {
        assert ([""] + rest)[1..] == rest;
        assert s == [','] + s[1..];
      } else {
        JoinCons(s[0], rest);
        assert s == [s[0]] + s[1..];
      }
    }
  }

  lemma {:induction false} SplitPrefix(p: string, t: string)
    requires ',' !in p
    ensures Split(p + t) == [p + Split(t)[0]] + Split(t)[1..]
  {
    var rt := Split(t);
    if p == [] {
      assert p + t == t && p + rt[0] == rt[0];
      assert rt == [rt[0]] + rt[1..];
    } else {
      SplitPrefix(p[1..], t);
      var s := p + t;
      assert s[0] == p[0] && s[0] != ',' && s[1..] == p[1..] + t;
      var rest := Split(s[1..]);
      assert rest == [p[1..] + rt[0]] + rt[1..];
      assert Split(s) == [[s[0]] + rest[0]] + rest[1..];
      assert rest[1..] == rt[1..];
      assert [p[0]] + (p[1..] + rt[0]) == p + rt[0];
    }
  }

  /** Joining comma-free pieces and splitting again gives back the pieces. */
  lemma {:induction false} SplitJoin(pieces: seq<string>)
    requires |pieces| >= 1
    requires forall k :: 0 <= k < |pieces| ==> ',' !in pieces[k]
    ensures Split(Join(pieces)) == pieces
  {
    var head := pieces[0];
    if |pieces| == 1 {
      SplitPrefix(head, "");
      assert head + "" == head && Split("") == [""];
      assert head + Split("")[0] == head;
    } else {
      var tail := pieces[1..];
      SplitJoin(tail);
      var t := "," + Join(tail);
      assert Join(pieces) == head + t;
      assert Split(t) == [""] + tail by {
        assert t != [] && t[0] == ',' && t[1..] == Join(tail);
      }
      SplitPrefix(head, t);
      assert Split(head + t) == [head + ""] + tail;
      assert head + "" == head;
      assert pieces == [head] + tail;
    }
  }

  /** `pieces.map(tag => tag.trim())`. */
  function TrimEach(pieces: seq<string>): (r: seq<string>)
    ensures |r| == |pieces|
  {
    seq(|pieces|, k requires 0 <= k < |pieces| => Trim(pieces[k]))
  }

  predicate NonEmpty(t: string) { t != "" }

  /** What every stored tag looks like: non-empty, no white space at either
      end, no comma. */
  predicate IsTag(t: string) {
    t != "" && ',' !in t && !IsWhiteSpace(t[0]) && !IsWhiteSpace(t[|t| - 1])
  }

  lemma {:induction false} TrimPieceIsTag(piece: string)
    requires ',' !in piece && Trim(piece) != ""
    ensures IsTag(Trim(piece))
  {
    TrimKeepsChars(piece, ',');
  }

  /** The tags `addPrompt` stores for the raw tag input. */
  function ParseTags(raw: string): (tags: seq<string>)
    ensures forall t :: t in tags ==> IsTag(t)
  {
    var pieces := Split(Trim(raw));
    var trimmed := TrimEach(pieces);
    forall k | 0 <= k < |trimmed| && NonEmpty(trimmed[k]) ensures IsTag(trimmed[k]) {
      TrimPieceIsTag(pieces[k]);
    }
    var tags := Filter(trimmed, NonEmpty);
    forall t | t in tags ensures IsTag(t) {
      FilterKeeps(trimmed, NonEmpty, t);
    }
    tags
  }

  lemma {:induction false} TrimEachSelects(pieces: seq<string>) returns (idx: seq<nat>)
    ensures |idx| == |Filter(TrimEach(pieces), NonEmpty)|
    ensures StrictlyIncreasing(idx)
    ensures forall k :: 0 <= k < |idx| ==>
              idx[k] < |pieces| && Filter(TrimEach(pieces), NonEmpty)[k] == Trim(pieces[idx[k]])
    ensures forall j :: 0 <= j < |pieces| && Trim(pieces[j]) != "" ==> j in idx
  {
    var trimmed := TrimEach(pieces);
    idx := FilterSelects(trimmed, NonEmpty);
    forall j | 0 <= j < |pieces| && Trim(pieces[j]) != "" ensures j in idx {
      assert NonEmpty(trimmed[j]);
    }
  }

  /** The tags keep the order of the input: they are the trimmed comma-separated
      pieces of the trimmed input, in order, minus exactly those that trim to
      nothing. */
  lemma {:induction false} ParseTagsInOrder(raw: string) returns (idx: seq<nat>)
    ensures |idx| == |ParseTags(raw)|
    ensures StrictlyIncreasing(idx)
    ensures forall k :: 0 <= k < |idx| ==>
              idx[k] < |Split(Trim(raw))| && ParseTags(raw)[k] == Trim(Split(Trim(raw))[idx[k]])
    ensures forall j :: 0 <= j < |Split(Trim(raw))| && Trim(Split(Trim(raw))[j]) != "" ==> j in idx
  {
    var pieces := Split(Trim(raw));
    assert ParseTags(raw) == Filter(TrimEach(pieces), NonEmpty);
    idx := TrimEachSelects(pieces);
  }
}
