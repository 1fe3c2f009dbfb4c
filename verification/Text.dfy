/** Splitting and joining of strings (Utils.cpp). `std::string` is a sequence of characters. */
module Text {

  /** `p` occurs in `s` at position `i`. */
  predicate At(s: string, p: string, i: int) {
    0 <= i && i + |p| <= |s| && s[i..i + |p|] == p
  }

  /** `std::string::find`: the first occurrence, or -1 for `npos`. */
  function Find(s: string, p: string): (r: int)
    ensures r == -1 || 0 <= r <= |s| - |p|
  {
    FindFrom(s, p, 0)
  }

  function FindFrom(s: string, p: string, k: nat): (r: int)
    requires k <= |s|
    ensures r == -1 || k <= r <= |s| - |p|
    decreases |s| - k
  {
    if At(s, p, k) then k
    else if k == |s| then -1
    else FindFrom(s, p, k + 1)
  }

  lemma {:induction false} FindFromFirst(s: string, p: string, k: nat)
    requires k <= |s|
    ensures var r := FindFrom(s, p, k);
            && (r == -1 || At(s, p, r))
            && forall j :: k <= j && (r == -1 || j < r) ==> !At(s, p, j)
    decreases |s| - k
  {
    if !At(s, p, k) && k < |s| {
      FindFromFirst(s, p, k + 1);
    }
  }

  /** `Find` is the first occurrence, and -1 exactly when there is none. */
  lemma FindFirst(s: string, p: string)
    ensures var r := Find(s, p);
            && (r == -1 || At(s, p, r))
            && forall j :: 0 <= j && (r == -1 || j < r) ==> !At(s, p, j)
  {
    FindFromFirst(s, p, 0);
  }

  /** The tokens of `s` separated by `p`; one final separator leaves no empty token behind. */
  function Split(s: string, p: string): seq<string>
    requires p != ""
    decreases |s|
  {
    if s == "" then []
    else
      var i := Find(s, p);
      if i == -1 then [s] else [s[..i]] + Split(s[i + |p|..], p)
  }

  function Join(parts: seq<string>, sep: string): string {
    if |parts| == 0 then ""
    else if |parts| == 1 then parts[0]
    else parts[0] + sep + Join(parts[1..], sep)
  }

  lemma SplitUnfold(s: string, p: string)
    requires s != "" && p != ""
    ensures var i := Find(s, p);
            Split(s, p) == [if i == -1 then s else s[..i]] + Split(if i == -1 then "" else s[i + |p|..], p)
  {
    var i := Find(s, p);
    if i == -1 { assert Split("", p) == []; }
  }

  /** `SplitStr`: cuts tokens off the front of a local copy until it is empty. */
  method SplitStr(source: string, pat: string) returns (toks: seq<string>)
    requires pat != ""
    ensures toks == Split(source, pat)
  {
    toks := [];
    var src := source;
    while src != ""
      invariant toks + Split(src, pat) == Split(source, pat)
      decreases |src|
    {
      var tokEnd := Find(src, pat);
      var tok := if tokEnd == -1 then src else src[..tokEnd];
      var rest := if tokEnd == -1 then "" else src[tokEnd + |pat|..];
      SplitUnfold(src, pat);
      Reassociate(toks, [tok], Split(rest, pat));
      toks, src := toks + [tok], rest;
    }
  }

  /** `JoinStrs`: appends separator and part, except before the first part. */
  method JoinStrs(parts: seq<string>, sep: string) returns (joined: string)
    ensures joined == Join(parts, sep)
  {
    joined := "";
    var first := true;
    for i := 0 to |parts|
      invariant first <==> i == 0
      invariant joined == Join(parts[..i], sep)
    {
      if !first {
        joined := joined + sep;
      }
      joined := joined + parts[i];
      first := false;
      JoinSnoc(parts[..i], parts[i], sep);
      assert parts[..i] + [parts[i]] == parts[..i + 1];
    }
    assert parts[..|parts|] == parts;
  }

  lemma {:induction false} JoinSnoc(parts: seq<string>, last: string, sep: string)
    ensures Join(parts + [last], sep) == if parts == [] then last else Join(parts, sep) + sep + last
  {
    if |parts| > 1 {
      JoinSnoc(parts[1..], last, sep);
      assert (parts + [last])[1..] == parts[1..] + [last];
      calc {
        Join(parts + [last], sep);
        parts[0] + sep + Join(parts[1..] + [last], sep);
        parts[0] + sep + (Join(parts[1..], sep) + sep + last);
        (parts[0] + sep + Join(parts[1..], sep)) + sep + last;
      }
    } else if |parts| == 1 {
      assert (parts + [last])[1..] == [last];
    }
  }

  lemma FindIs(s: string, p: string, i: nat)
    requires At(s, p, i)
    requires forall j :: 0 <= j < i ==> !At(s, p, j)
    ensures Find(s, p) == i
  {
    FindFirst(s, p);
  }

  /** An occurrence of `p` that starts inside `t` lies inside `t + p`, whatever follows. */
  lemma AtLocal(t: string, p: string, rest: string, j: nat)
    requires j <= |t|
    ensures At(t + p + rest, p, j) <==> At(t + p, p, j)
  {
    assert (t + p + rest)[j..j + |p|] == (t + p)[j..j + |p|];
  }

  lemma FindLocal(t: string, p: string, rest: string)
    ensures Find(t + p + rest, p) == |t| <==> Find(t + p, p) == |t|
    ensures 0 <= Find(t + p + rest, p) <= |t|
  {
    var s := t + p + rest;
    FindFirst(s, p);
    FindFirst(t + p, p);
    assert At(t + p, p, |t|);
    forall j: nat | j <= |t| ensures At(s, p, j) <==> At(t + p, p, j) { AtLocal(t, p, rest, j); }
    if Find(s, p) == |t| { FindIs(t + p, p, |t|); }
    if Find(t + p, p) == |t| { FindIs(s, p, |t|); }
  }

  /** Exactly when the left-to-right scan ends on a separator that closes the string. */
  predicate EndsOnSeparator(s: string, p: string)
    requires p != ""
    decreases |s|
  {
    s != "" &&
    var i := Find(s, p);
    i != -1 && (i + |p| == |s| || EndsOnSeparator(s[i + |p|..], p))
  }

  lemma {:induction false} JoinOfSplit(s: string, p: string)
    requires p != ""
    ensures Join(Split(s, p), p) + (if EndsOnSeparator(s, p) then p else "") == s
    decreases |s|
  {
    var i := Find(s, p);
    if s != "" && i != -1 {
      var rest := s[i + |p|..];
      FindCut(s, p);
      JoinOfSplit(rest, p);
      if rest != "" {
        JoinCons(s[..i], Split(rest, p), p);
        Reassociate(s[..i] + p, Join(Split(rest, p), p), if EndsOnSeparator(rest, p) then p else "");
      }
    }
  }

  lemma FindCut(s: string, p: string)
    requires Find(s, p) != -1
    ensures var i := Find(s, p); s == s[..i] + p + s[i + |p|..]
  {
    FindFirst(s, p);
  }

  lemma Reassociate<T>(a: seq<T>, b: seq<T>, c: seq<T>)
    ensures (a + b) + c == a + (b + c)
  {
  }

  lemma JoinCons(first: string, toks: seq<string>, sep: string)
    requires toks != []
    ensures Join([first] + toks, sep) == first + sep + Join(toks, sep)
  {
    assert ([first] + toks)[1..] == toks;
  }

  /** The tokens that `SplitStr` can give back. */
  predicate Splittable(toks: seq<string>, p: string) {
    toks == [] ||
    (&& toks[|toks| - 1] != ""
     && Find(toks[|toks| - 1], p) == -1
     && forall k :: 0 <= k < |toks| - 1 ==> Find(toks[k] + p, p) == |toks[k]|)
  }

  lemma {:induction false} SplitOfJoin(toks: seq<string>, p: string)
    requires p != ""
    ensures Split(Join(toks, p), p) == toks <==> Splittable(toks, p)
  {
    if |toks| == 1 {
      if toks[0] != "" { SplitUnfold(toks[0], p); }
    } else if |toks| > 1 {
      var t, rest := toks[0], Join(toks[1..], p);
      SplitOfJoin(toks[1..], p);
      FindLocal(t, p, rest);
      SplitUnfold(t + p + rest, p);
      SplitHead(t, p, rest);
      if Find(t + p, p) == |t| {
        SplittableTail(toks, p);
      }
    }
  }

  lemma SplitHead(t: string, p: string, rest: string)
    requires p != ""
    ensures Split(t + p + rest, p) != []
    ensures Split(t + p + rest, p)[0] == t <==> Find(t + p, p) == |t|
    ensures Find(t + p, p) == |t| ==> Split(t + p + rest, p)[1..] == Split(rest, p)
  {
    var s := t + p + rest;
    FindLocal(t, p, rest);
    SplitUnfold(s, p);
    var i := Find(s, p);
    if i == |t| {
      assert s[..i] == t && s[i + |p|..] == rest;
    } else {
      assert |s[..i]| == i;
    }
  }

  lemma SplittableTail(toks: seq<string>, p: string)
    requires |toks| > 1 && Find(toks[0] + p, p) == |toks[0]|
    ensures Splittable(toks, p) <==> Splittable(toks[1..], p)
  {
    var tail := toks[1..];
    if Splittable(toks, p) {
      forall k | 0 <= k < |tail| - 1 ensures Find(tail[k] + p, p) == |tail[k]| {
        assert tail[k] == toks[k + 1];
      }
    }
    if Splittable(tail, p) {
      forall k | 0 <= k < |toks| - 1 ensures Find(toks[k] + p, p) == |toks[k]| {
        if k > 0 { assert toks[k] == tail[k - 1]; }
      }
    }
  }

  lemma SliceOfPrefix<T>(s: seq<T>, i: nat, j: nat, k: nat)
    requires j <= k <= i <= |s|
    ensures s[..i][j..k] == s[j..k]
  {
  }

  /** No token of a split contains the separator. */
  lemma {:induction false} TokensAreFree(s: string, p: string)
    requires p != ""
    ensures forall t :: t in Split(s, p) ==> Find(t, p) == -1
    decreases |s|
  {
    var i := Find(s, p);
    FindFirst(s, p);
    if s != "" && i != -1 {
      TokensAreFree(s[i + |p|..], p);
      FindFirst(s[..i], p);
      forall j: nat ensures At(s[..i], p, j) ==> At(s, p, j) {
        if j + |p| <= i { SliceOfPrefix(s, i, j, j + |p|); }
      }
    }
  }

  /** For a one-character separator every token may be followed by anything. */
  lemma CharFree(t: string, c: char)
    requires c !in t
    ensures Find(t, [c]) == -1
    ensures Find(t + [c], [c]) == |t|
  {
    FindFirst(t, [c]);
    forall j: nat ensures !At(t, [c], j) {
      if j < |t| { assert t[j..j + 1][0] == t[j]; }
    }
    forall j: nat | j < |t| ensures !At(t + [c], [c], j) {
      assert (t + [c])[j..j + 1][0] == t[j];
    }
    assert (t + [c])[|t|..|t| + 1] == [c];
    FindIs(t + [c], [c], |t|);
  }

  /** Lines written with a final newline each are the lines `getline` reads back. */
  function Lines(lines: seq<string>): string {
    if lines == [] then "" else lines[0] + "\n" + Lines(lines[1..])
  }

  /** The loop `while (getline (stream, line))` over a whole text. */
  function GetLines(text: string): seq<string> { Split(text, "\n") }

  lemma {:induction false} LinesRoundTrip(lines: seq<string>)
    requires forall l :: l in lines ==> '\n' !in l
    ensures GetLines(Lines(lines)) == lines
  {
    if lines != [] {
      var rest := Lines(lines[1..]);
      LinesRoundTrip(lines[1..]);
      CharFree(lines[0], '\n');
      FindLocal(lines[0], "\n", rest);
      assert Lines(lines)[|lines[0]| + 1..] == rest;
      assert Lines(lines)[..|lines[0]|] == lines[0];
    }
  }
}
