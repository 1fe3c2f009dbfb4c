/** The path normaliser `CanonizeFileNameNoCWD` (Utils.cpp). */
module PathNames {
  import opened Text

  /** What one path component does to the components kept so far. */
  function Push(stack: seq<string>, tok: string): seq<string> {
    if tok == "" || tok == "." then stack
    else if tok == ".." then (if stack == [] then [] else stack[..|stack| - 1])
    else stack + [tok]
  }

  /** The components of a path, resolved from left to right over a stack. */
  function Fold(stack: seq<string>, toks: seq<string>): seq<string>
    decreases |toks|
  {
    if toks == [] then stack else Fold(Push(stack, toks[0]), toks[1..])
  }

  function Components(raw: string): seq<string> { Fold([], Split(raw, "/")) }

  function Root(raw: string): string { if raw != "" && raw[0] == '/' then "/" else "" }

  /** The canonical name. A ".." at the start is dropped, even in a relative name. */
  function Canon(raw: string): string { Root(raw) + Join(Components(raw), "/") }

  /** `CanonizeFileName`, with the current directory as a parameter. */
  function CanonIn(raw: string, cwd: string): string {
    Canon(if Root(raw) == "/" then raw else cwd + "/" + raw)
  }

  predicate CleanToken(t: string) {
    t != "" && t != "." && t != ".." && '/' !in t
  }

  predicate Clean(toks: seq<string>) { forall t :: t in toks ==> CleanToken(t) }

  /** The loop over a vector that erases the current token, or it and its predecessor, and steps back. */
  method EraseDots(source: seq<string>) returns (toks: seq<string>)
    ensures toks == Fold([], source)
  {
    toks := source;
    var itr := 0;
    assert toks[..0] == [] && toks[0..] == toks;
    while itr < |toks|
      invariant 0 <= itr <= |toks|
      invariant Fold(toks[..itr], toks[itr..]) == Fold([], source)
      decreases |toks| - itr
    {
      var tok := toks[itr];
      ghost var stack, rest := toks[..itr], toks[itr + 1..];
      assert toks[itr..][1..] == rest;
      if tok == "" || tok == "." {
        toks := toks[..itr] + toks[itr + 1..];
        itr := itr - 1;
      } else if tok == ".." {
        if itr == 0 {
          toks := toks[itr + 1..];
          itr := itr - 1;
        } else {
          toks := toks[..itr - 1] + toks[itr + 1..];
          itr := itr - 2;
        }
      }
      itr := itr + 1;
      assert toks[..itr] == Push(stack, tok) && toks[itr..] == rest;
    }
    assert toks[..itr] == toks && toks[itr..] == [];
  }

  method CanonizeFileNameNoCWD(raw: string) returns (name: string)
    ensures name == Canon(raw)
  {
    if raw == "" {
      return "";
    }
    var abs := raw[0] == '/';
    var toks := SplitStr(raw, "/");
    toks := EraseDots(toks);
    name := JoinStrs(toks, "/");
    if abs {
      name := "/" + name;
    }
  }

  lemma {:induction false} FoldClean(stack: seq<string>, toks: seq<string>)
    requires Clean(stack)
    requires forall t :: t in toks ==> '/' !in t
    ensures Clean(Fold(stack, toks))
    decreases |toks|
  {
    if toks != [] {
      FoldClean(Push(stack, toks[0]), toks[1..]);
    }
  }

  lemma {:induction false} FoldOfClean(stack: seq<string>, toks: seq<string>)
    requires Clean(toks)
    ensures Fold(stack, toks) == stack + toks
    decreases |toks|
  {
    if toks != [] {
      assert CleanToken(toks[0]);
      FoldOfClean(stack + [toks[0]], toks[1..]);
    }
  }

  lemma SlashFree(t: string)
    requires Find(t, "/") == -1
    ensures '/' !in t
  {
    FindFirst(t, "/");
    forall j | 0 <= j < |t| ensures t[j] != '/' {
      assert !At(t, "/", j);
    }
  }

  /** No component "", "." or ".." is left, and none holds a slash. */
  lemma ComponentsAreClean(raw: string)
    ensures Clean(Components(raw))
  {
    var toks := Split(raw, "/");
    TokensAreFree(raw, "/");
    forall t | t in toks ensures '/' !in t { SlashFree(t); }
    FoldClean([], toks);
  }

  lemma SplitOfClean(toks: seq<string>)
    requires Clean(toks)
    ensures Split(Join(toks, "/"), "/") == toks
  {
    forall k | 0 <= k < |toks|
      ensures toks[k] != "" && Find(toks[k], "/") == -1 && Find(toks[k] + "/", "/") == |toks[k]|
    {
      assert CleanToken(toks[k]);
      CharFree(toks[k], '/');
    }
    SplitOfJoin(toks, "/");
  }

  /** The canonical name splits into exactly the clean components, after a leading slash if there is one. */
  lemma CanonIsClean(raw: string)
    ensures Root(Canon(raw)) == Root(raw)
    ensures var body := Canon(raw)[|Root(raw)|..]; Split(body, "/") == Components(raw) && Clean(Split(body, "/"))
  {
    var c := Components(raw);
    ComponentsAreClean(raw);
    SplitOfClean(c);
    assert Canon(raw)[|Root(raw)|..] == Join(c, "/");
    if Root(raw) == "" && c != [] {
      assert CleanToken(c[0]);
      assert Join(c, "/")[0] == c[0][0];
    }
  }

  /** Resolving `a/b` is resolving `a` and then `b` from there. */
  lemma {:induction false} FoldAppend(stack: seq<string>, a: string, b: string)
    ensures Fold(stack, Split(a + "/" + b, "/")) == Fold(Fold(stack, Split(a, "/")), Split(b, "/"))
    decreases |a|
  {
    var i := Find(a, "/");
    if i == -1 {
      FoldLast(stack, a, b);
    } else {
      var head, rest := a[..i], a[i + 1..];
      HeadIsFree(a);
      FoldAppend(Push(stack, head), rest, b);
      FoldCutTwice(stack, head, rest, b);
      FindCut(a, "/");
      assert a == head + "/" + rest;
    }
  }

  lemma FoldLast(stack: seq<string>, a: string, b: string)
    requires Find(a, "/") == -1
    ensures Fold(stack, Split(a + "/" + b, "/")) == Fold(Fold(stack, Split(a, "/")), Split(b, "/"))
  {
    SlashFree(a);
    CharFree(a, '/');
    FoldCut(stack, a, b);
    if a != "" { assert Split(a, "/") == [a]; }
  }

  lemma FoldCutTwice(stack: seq<string>, head: string, rest: string, b: string)
    requires Find(head + "/", "/") == |head|
    ensures Fold(stack, Split(head + "/" + rest, "/")) == Fold(Push(stack, head), Split(rest, "/"))
    ensures Fold(stack, Split(head + "/" + rest + "/" + b, "/")) == Fold(Push(stack, head), Split(rest + "/" + b, "/"))
  {
    FoldCut(stack, head, rest);
    SlashAssociates(head, rest, b);
    FoldCut(stack, head, rest + "/" + b);
  }

  lemma SlashAssociates(a: string, b: string, c: string)
    ensures a + "/" + b + "/" + c == a + "/" + (b + "/" + c)
  {
  }

  lemma FoldCut(stack: seq<string>, head: string, rest: string)
    requires Find(head + "/", "/") == |head|
    ensures Fold(stack, Split(head + "/" + rest, "/")) == Fold(Push(stack, head), Split(rest, "/"))
  {
    SplitHead(head, "/", rest);
  }

  lemma HeadIsFree(a: string)
    requires Find(a, "/") != -1
    ensures var t := a[..Find(a, "/")]; Find(t + "/", "/") == |t|
  {
    var i := Find(a, "/");
    FindFirst(a, "/");
    forall j | 0 <= j < i ensures a[j] != '/' { assert !At(a, "/", j); }
    CharFree(a[..i], '/');
  }

  lemma FoldOfCanon(raw: string)
    ensures Components(Canon(raw)) == Components(raw)
  {
    var c := Components(raw);
    CanonIsClean(raw);
    FoldOfClean([], c);
    if Root(raw) == "/" {
      FoldAppend([], "", Join(c, "/"));
      assert Canon(raw) == "" + "/" + Join(c, "/");
    } else {
      assert Canon(raw) == Join(c, "/");
    }
  }

  lemma CanonIdempotent(raw: string)
    ensures Canon(Canon(raw)) == Canon(raw)
  {
    CanonIsClean(raw);
    FoldOfCanon(raw);
  }

  /** A name below an absolute directory may be resolved against the directory's canonical name. */
  lemma CanonCompose(a: string, b: string)
    requires Root(a) == "/"
    ensures Canon(a + "/" + b) == Canon(Canon(a) + "/" + b)
  {
    FoldOfCanon(a);
    FoldAppend([], a, b);
    FoldAppend([], Canon(a), b);
  }

  lemma CanonInCanonicalDir(raw: string, cwd: string)
    requires Root(cwd) == "/"
    ensures CanonIn(raw, cwd) == CanonIn(raw, Canon(cwd))
    ensures Canon(CanonIn(raw, cwd)) == CanonIn(raw, cwd)
  {
    CanonCompose(cwd, raw);
    CanonIdempotent(if Root(raw) == "/" then raw else cwd + "/" + raw);
  }

  lemma Below(a: string, b: string)
    ensures Components(a + "/" + b) == Fold(Components(a), Split(b, "/"))
  {
    FoldAppend([], a, b);
  }

  lemma SplitOne(t: string)
    requires '/' !in t
    ensures Split(t, "/") == if t == "" then [] else [t]
  {
    CharFree(t, '/');
  }

  /** The components of a path, then a slash and one component more. */
  lemma OneMore(a: string, t: string)
    requires '/' !in t
    ensures Components(a + "/" + t) == if t == "" then Components(a) else Push(Components(a), t)
  {
    Below(a, t);
    SplitOne(t);
  }

  lemma Slashed(a: string, rest: string)
    requires rest != "" && rest[0] == '/'
    ensures a + rest == a + "/" + rest[1..]
  {
  }

  /** Equal components stay equal below. */
  lemma SameBelow(a: string, b: string, rest: string)
    requires Components(a) == Components(b) && (rest == "" || rest[0] == '/')
    ensures Components(a + rest) == Components(b + rest)
  {
    if rest == "" {
      assert a + rest == a && b + rest == b;
    } else {
      Below(a, rest[1..]);
      Below(b, rest[1..]);
      Slashed(a, rest);
      Slashed(b, rest);
    }
  }

  lemma Prefixed(a: string, b: string, rest: string)
    requires b != "" && b[0] == '/' && (rest == "" || rest[0] == '/')
    ensures Root(a + b + rest) == if a + rest == "" then "/" else Root(a + rest)
  {
    if a == "" { assert a + b + rest == b + rest && a + rest == rest; }
  }

  lemma CanonOfEmpty()
    ensures Canon("") == "" && Components("") == []
  {
  }

  /** What is left out of the components can be left out of the path. */
  lemma Droppable(a: string, b: string, rest: string)
    requires b != "" && b[0] == '/' && Components(a + b) == Components(a) && (rest == "" || rest[0] == '/')
    ensures Canon(a + b + rest) == if a + rest == "" then "/" else Canon(a + rest)
  {
    SameBelow(a + b, a, rest);
    Prefixed(a, b, rest);
    if a + rest == "" { CanonOfEmpty(); }
  }

  /** An empty component, a ".", and a name followed by ".." can be left out anywhere. A name that consists of nothing
      else is the root directory. */
  lemma CanonDrops(a: string, t: string, rest: string)
    requires rest == "" || rest[0] == '/'
    ensures Canon(a + "/" + rest) == if a + rest == "" then "/" else Canon(a + rest)
    ensures Canon(a + "/." + rest) == if a + rest == "" then "/" else Canon(a + rest)
    ensures CleanToken(t) ==> Canon(a + ("/" + t + "/..") + rest) == if a + rest == "" then "/" else Canon(a + rest)
  {
    OneMore(a, "");
    OneMore(a, ".");
    assert a + "/" + "" == a + "/" && a + "/" + "." == a + "/.";
    Droppable(a, "/", rest);
    Droppable(a, "/.", rest);
    if CleanToken(t) {
      UpAgain(a, t);
      Droppable(a, "/" + t + "/..", rest);
    }
  }

  lemma UpAgain(a: string, t: string)
    requires CleanToken(t)
    ensures Components(a + ("/" + t + "/..")) == Components(a)
  {
    OneMore(a, t);
    OneMore(a + "/" + t, "..");
    UpPath(a, t);
    PopPushed(Components(a), t);
  }

  lemma UpPath(a: string, t: string)
    ensures a + "/" + t + "/" + ".." == a + ("/" + t + "/..")
  {
  }

  lemma PopPushed(stack: seq<string>, t: string)
    requires CleanToken(t)
    ensures Push(Push(stack, t), "..") == stack
  {
  }

  /** There is nothing above the root directory. */
  lemma CanonAtRoot(b: string)
    ensures Canon("/../" + b) == Canon("/" + b) && Canon("/..") == "/"
  {
    var up := "/..";
    OneMore("", "..");
    assert "" + "/" + ".." == up;
    CanonOfEmpty();
    Below(up, b);
    Below("", b);
    assert up + "/" + b == "/../" + b && "" + "/" + b == "/" + b;
  }

  lemma DotsAlone(dots: string)
    requires dots == "." || dots == ".."
    ensures Components(dots) == [] && Canon(dots) == ""
  {
    SplitOne(dots);
    assert Push([], dots) == [] && [dots][1..] == [];
    assert Fold([], [dots]) == Fold([], []);
  }

  /** And nothing above the start of a relative name: a leading "." or ".." is dropped. */
  lemma CanonAtStart(b: string, dots: string)
    requires Root(b) == "" && (dots == "." || dots == "..")
    ensures Canon(dots + "/" + b) == Canon(b) && Canon(dots) == ""
  {
    DotsAlone(dots);
    Below(dots, b);
    assert Root(dots + "/" + b) == "";
  }

  /** A path of clean components is its own canonical name. */
  lemma CanonOfClean(toks: seq<string>)
    requires Clean(toks)
    ensures Canon("/" + Join(toks, "/")) == "/" + Join(toks, "/")
    ensures Canon(Join(toks, "/")) == Join(toks, "/")
  {
    SplitOfClean(toks);
    FoldOfClean([], toks);
    FoldAppend([], "", Join(toks, "/"));
    assert "" + "/" + Join(toks, "/") == "/" + Join(toks, "/");
    assert [] + toks == toks;
    if toks != [] {
      assert CleanToken(toks[0]);
      assert Join(toks, "/")[0] == toks[0][0];
    }
  }

  /** A relative name of clean components is looked up below the working directory; an absolute name stands alone. */
  lemma CanonInDir(toks: seq<string>, cwd: string)
    requires Clean(toks) && toks != [] && Root(cwd) == "/"
    ensures CanonIn(Join(toks, "/"), cwd) == (if Canon(cwd) == "/" then "/" else Canon(cwd) + "/") + Join(toks, "/")
    ensures CanonIn("/" + Join(toks, "/"), cwd) == "/" + Join(toks, "/")
  {
    CanonOfClean(toks);
    CleanIsRelative(toks);
    ComponentsInDir(toks, cwd);
    JoinInDir(Components(cwd), toks);
    ComponentsAreClean(cwd);
    CleanIsRelative(Components(cwd));
  }

  lemma CleanIsRelative(toks: seq<string>)
    requires Clean(toks)
    ensures Root(Join(toks, "/")) == "" && (toks != [] ==> Join(toks, "/") != "")
  {
    if toks != [] {
      assert CleanToken(toks[0]);
      assert Join(toks, "/")[0] == toks[0][0];
    }
  }

  lemma ComponentsInDir(toks: seq<string>, cwd: string)
    requires Clean(toks)
    ensures Components(cwd + "/" + Join(toks, "/")) == Components(cwd) + toks
  {
    Below(cwd, Join(toks, "/"));
    SplitOfClean(toks);
    FoldOfClean(Components(cwd), toks);
  }

  lemma JoinInDir(c: seq<string>, toks: seq<string>)
    requires toks != []
    ensures "/" + Join(c + toks, "/") == (if c == [] then "/" else "/" + Join(c, "/") + "/") + Join(toks, "/")
  {
    JoinBoth(c, toks);
  }

  lemma {:induction false} JoinBoth(a: seq<string>, b: seq<string>)
    requires b != []
    ensures Join(a + b, "/") == if a == [] then Join(b, "/") else Join(a, "/") + "/" + Join(b, "/")
  {
    if a == [] {
      assert a + b == b;
    } else {
      assert (a + b)[1..] == a[1..] + b && (a + b)[0] == a[0];
      JoinBoth(a[1..], b);
      if |a| > 1 { SlashAssociates(a[0], Join(a[1..], "/"), Join(b, "/")); }
    }
  }
}
