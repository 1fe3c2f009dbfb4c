/** One line of an archive's List file: `PushListEntry` and `ParseListLine` (Archive.cpp). */
module ListLines {
  import opened Common
  import opened Text
  import opened Numbers
  import opened FInfos

  /** `FileListEntry`, without the line number that only messages use. */
  datatype Entry = Entry(
    name: string, mode: nat, uid: nat, gid: nat, size: int, mtime: TimeSpec,
    flag: char, link: string, finfo: int, acl: string)

  const SEP := " \\'%;#\"\\ "

  /** `S_ISLNK` */
  predicate IsLink(mode: nat) { mode / 0x1000 % 16 == 10 }

  function Field(key: string, val: string): string { key + ">" + val }

  function StatFields(e: Entry): seq<string> {
    [Field("mode", Print(e.mode, 16)), Field("uid", Print(e.uid, 16)), Field("gid", Print(e.gid, 16)),
     Field("size", PrintSigned(e.size)), Field("mtime", Print(TimeSpecToNs(e.mtime), 16))]
  }

  function Fields(e: Entry): seq<string> {
    StatFields(e)
    + (if e.acl != "" then [Field("acl", e.acl)] else [])
    + (if e.finfo != INT64_MIN then [Field([e.flag], PrintSigned(e.finfo))] else [])
  }

  function Attributes(e: Entry): string { Join(Fields(e), " ") }

  function Cuts(e: Entry): seq<string> {
    [e.name, Attributes(e)] + (if IsLink(e.mode) then [Field("slink", e.link)] else [])
  }

  /** The line of an entry, without its newline. */
  function Line(e: Entry): string { Join(Cuts(e), SEP) }

  /** `PushListEntry`: the stream insertions in order. */
  method PrintEntry(e: Entry) returns (text: string)
    ensures text == Line(e) + "\n"
  {
    text := PrintStats(e);
    ghost var fields := StatFields(e);
    if e.acl != "" {
      fields := Append(fields, text + " ", Field("acl", e.acl));
      text := text + " " + Field("acl", e.acl);
    }
    if e.finfo != INT64_MIN {
      fields := Append(fields, text + " ", Field([e.flag], PrintSigned(e.finfo)));
      text := text + " " + Field([e.flag], PrintSigned(e.finfo));
    }
    assert fields == Fields(e);
    text := FinishLine(e, text);
  }

  method PrintStats(e: Entry) returns (text: string)
    ensures text == Join(StatFields(e), " ")
  {
    var mode, uid, gid := Field("mode", Print(e.mode, 16)), Field("uid", Print(e.uid, 16)), Field("gid", Print(e.gid, 16));
    var size, mtime := Field("size", PrintSigned(e.size)), Field("mtime", Print(TimeSpecToNs(e.mtime), 16));
    text := mode + " ";
    text := text + uid + " ";
    text := text + gid + " ";
    text := text + size + " ";
    text := text + mtime;
    JoinFive(mode, uid, gid, size, mtime);
  }

  lemma JoinFive(a: string, b: string, c: string, d: string, e: string)
    ensures Join([a, b, c, d, e], " ") == a + " " + b + " " + c + " " + d + " " + e
  {
    JoinSnoc([a], b, " ");
    JoinSnoc([a, b], c, " ");
    JoinSnoc([a, b, c], d, " ");
    JoinSnoc([a, b, c, d], e, " ");
    assert [a] + [b] == [a, b] && [a, b] + [c] == [a, b, c];
    assert [a, b, c] + [d] == [a, b, c, d] && [a, b, c, d] + [e] == [a, b, c, d, e];
  }

  /** One more attribute on the stream is one more token of the line. */
  lemma Append(fields: seq<string>, text: string, field: string) returns (more: seq<string>)
    requires fields != [] && text == Join(fields, " ") + " "
    ensures more == fields + [field] && text + field == Join(more, " ")
  {
    more := fields + [field];
    JoinSnoc(fields, field, " ");
  }

  /** The attributes of a line, in the order in which they are printed. */
  lemma AttributesText(e: Entry)
    ensures Attributes(e)
         == "mode>" + Print(e.mode, 16) + " " + ("uid>" + Print(e.uid, 16)) + " " + ("gid>" + Print(e.gid, 16))
            + " " + ("size>" + PrintSigned(e.size)) + " " + ("mtime>" + Print(TimeSpecToNs(e.mtime), 16))
            + (if e.acl != "" then " " + ("acl>" + e.acl) else "")
            + (if e.finfo != -0x8000_0000_0000_0000 then " " + ([e.flag] + ">" + PrintSigned(e.finfo)) else "")
  {
    StatsText(e);
    var acl := if e.acl != "" then [Field("acl", e.acl)] else [];
    assert Field("acl", e.acl) == "acl>" + e.acl;
    var finfo := if e.finfo != INT64_MIN then [Field([e.flag], PrintSigned(e.finfo))] else [];
    OptionalText(StatFields(e), acl, if e.acl != "" then "acl>" + e.acl else "");
    OptionalText(StatFields(e) + acl, finfo, if e.finfo != INT64_MIN then [e.flag] + ">" + PrintSigned(e.finfo) else "");
  }

  /** One more attribute, or none. */
  lemma OptionalText(fields: seq<string>, more: seq<string>, text: string)
    requires fields != [] && (more == [] || more == [text])
    ensures Join(fields + more, " ") == Join(fields, " ") + if more == [] then "" else " " + text
  {
    if more == [] {
      assert fields + more == fields && Join(fields, " ") + "" == Join(fields, " ");
    } else {
      JoinSnoc(fields, text, " ");
    }
  }

  lemma StatsText(e: Entry)
    ensures Join(StatFields(e), " ")
         == "mode>" + Print(e.mode, 16) + " " + ("uid>" + Print(e.uid, 16)) + " " + ("gid>" + Print(e.gid, 16))
            + " " + ("size>" + PrintSigned(e.size)) + " " + ("mtime>" + Print(TimeSpecToNs(e.mtime), 16))
  {
    var s := StatFields(e);
    JoinFive(s[0], s[1], s[2], s[3], s[4]);
    assert s[0] == "mode>" + Print(e.mode, 16) && s[1] == "uid>" + Print(e.uid, 16) && s[2] == "gid>" + Print(e.gid, 16);
    assert s[3] == "size>" + PrintSigned(e.size) && s[4] == "mtime>" + Print(TimeSpecToNs(e.mtime), 16);
  }

  method FinishLine(e: Entry, attributes: string) returns (text: string)
    requires attributes == Attributes(e)
    ensures text == Line(e) + "\n"
  {
    text := e.name + SEP + attributes;
    var cuts := [e.name, attributes];
    assert text == Join(cuts, SEP);
    if IsLink(e.mode) {
      text := text + SEP + Field("slink", e.link);
      JoinSnoc(cuts, Field("slink", e.link), SEP);
      cuts := cuts + [Field("slink", e.link)];
    }
    assert cuts == Cuts(e);
    text := text + "\n";
  }

  /** One attribute. A token without '>' makes the source read past its vector; that is an error here. */
  function ParseField(e: Entry, tok: string): Result<Entry> {
    var toks := Split(tok, ">");
    if |toks| < 2 then Err("no value")
    else ParseKey(e, toks[0], toks[1])
  }

  /** Conversion of an unsigned value to a 32-bit field. */
  function Low32(u: nat): nat { if u < U32 then u else u % U32 }

  function ParseKey(e: Entry, key: string, val: string): Result<Entry> {
    if key == "mode" then Ok(e.(mode := Low32(StrToULL(val, 16))))
    else if key == "uid" then Ok(e.(uid := Low32(StrToULL(val, 16))))
    else if key == "gid" then Ok(e.(gid := Low32(StrToULL(val, 16))))
    else if key == "size" then Ok(e.(size := ToI64(StrToULL(val, 10))))
    else if key == "mtime" then Ok(e.(mtime := NsToTimeSpec(StrToULL(val, 16))))
    else if key == "U" || key == "C" then Ok(e.(finfo := ToI64(StrToULL(val, 10)), flag := key[0]))
    else if key == "acl" then Ok(e.(acl := val))
    else Err("Illegal entry")
  }

  function ParseFields(e: Entry, toks: seq<string>): Result<Entry>
    decreases |toks|
  {
    if toks == [] then Ok(e)
    else match ParseField(e, toks[0])
      case Err(m) => Err(m)
      case Ok(f) => ParseFields(f, toks[1..])
  }

  function Fresh(blank: Entry, name: string): Entry {
    blank.(name := name, flag := UNCOMPRESSED, mode := 0, link := "", finfo := INT64_MIN, acl := "")
  }

  /** The entry a line stands for. `blank` holds what an uninitialised `FileListEntry` happens to hold. */
  function Parse(line: string, blank: Entry): Result<Entry> {
    var cut := Split(line, SEP);
    if |cut| != 2 && |cut| != 3 then Err("bad format")
    else match ParseFields(Fresh(blank, cut[0]), Split(cut[1], " "))
      case Err(m) => Err(m)
      case Ok(e) =>
        if |cut| == 2 then Ok(e)
        else if |cut[2]| < 6 || cut[2][..6] != "slink>" then Err("Illegal entry")
        else Ok(e.(link := cut[2][6..]))
  }

  method ParseListLine(line: string, blank: Entry) returns (r: Result<Entry>)
    ensures r == Parse(line, blank)
  {
    var firstCut := SplitStr(line, SEP);
    if |firstCut| != 2 && |firstCut| != 3 {
      return Err("bad format");
    }
    var res := Fresh(blank, firstCut[0]);
    var toks := SplitStr(firstCut[1], " ");
    assert toks[0..] == toks;
    for i := 0 to |toks|
      invariant ParseFields(res, toks[i..]) == ParseFields(Fresh(blank, firstCut[0]), toks)
    {
      assert toks[i..][1..] == toks[i + 1..];
      var f := ParseField(res, toks[i]);
      if f.Err? {
        return Err(f.message);
      }
      res := f.value;
    }
    assert toks[|toks|..] == [];
    if |firstCut| == 3 {
      if |firstCut[2]| < 6 || firstCut[2][..6] != "slink>" {
        return Err("Illegal entry");
      }
      res := res.(link := firstCut[2][6..]);
    }
    return Ok(res);
  }

  /** A token that the loop accepts. */
  predicate Known(tok: string) {
    var toks := Split(tok, ">");
    |toks| >= 2 && toks[0] in {"mode", "uid", "gid", "size", "mtime", "U", "C", "acl"}
  }

  lemma {:induction false} FieldsParse(e: Entry, toks: seq<string>)
    ensures ParseFields(e, toks).Ok? <==> forall t :: t in toks ==> Known(t)
    decreases |toks|
  {
    if toks != [] {
      var f := ParseField(e, toks[0]);
      assert f.Ok? <==> Known(toks[0]);
      assert forall t :: t in toks <==> t == toks[0] || t in toks[1..];
      if f.Ok? { FieldsParse(f.value, toks[1..]); }
    }
  }

  /** Which lines are accepted at all. */
  lemma ParsesExactly(line: string, blank: Entry)
    ensures Parse(line, blank).Ok? <==>
              var cut := Split(line, SEP);
              && (|cut| == 2 || (|cut| == 3 && "slink>" <= cut[2]))
              && forall t :: t in Split(cut[1], " ") ==> Known(t)
  {
    var cut := Split(line, SEP);
    if |cut| == 2 || |cut| == 3 { FieldsParse(Fresh(blank, cut[0]), Split(cut[1], " ")); }
    if |cut| == 3 && |cut[2]| >= 6 { assert "slink>" <= cut[2] <==> cut[2][..6] == "slink>"; }
  }

  /** What the types and the writer of an entry already guarantee. */
  predicate Storable(e: Entry) {
    && e.mode < U32 && e.uid < U32 && e.gid < U32
    && INT64_MIN <= e.size < I63 && INT64_MIN <= e.finfo < I63
    && Representable(e.mtime) && Flag(e.flag)
    && (e.finfo == INT64_MIN ==> e.flag == UNCOMPRESSED)
    && ' ' !in e.acl && '>' !in e.acl
    && (0xA000 <= e.mode % 0x10000 < 0xB000 || e.link == "")
  }

  /** The exact condition on a name. The separator overlaps itself, so "does not contain it" is not enough. */
  predicate NameParses(name: string) { Find(name + SEP, SEP) == |name| }

  /** The exact condition on an entry: a symbolic link's target must not contain the separator. */
  predicate LineParses(e: Entry) {
    NameParses(e.name) && (0xA000 <= e.mode % 0x10000 < 0xB000 ==> Find(e.link, SEP) == -1)
  }

  /** The bits of a mode that say what kind of file it is. */
  lemma LinkModes(mode: nat)
    ensures IsLink(mode) <==> 0xA000 <= mode % 0x10000 < 0xB000
  {
    var kind, low := mode / 0x1000 % 16, mode % 0x1000;
    assert mode == mode / 0x10000 * 0x10000 + kind * 0x1000 + low;
    assert mode % 0x10000 == kind * 0x1000 + low;
  }

  /** A printed attribute: nothing in it can be mistaken for a blank, for '>' or for the start of a separator. */
  predicate GoodField(key: string, val: string) {
    && key != "" && val != "" && key[0] != '\\'
    && ' ' !in key && ' ' !in val && '>' !in key && '>' !in val
  }

  lemma SplitField(key: string, val: string)
    requires GoodField(key, val)
    ensures Split(Field(key, val), ">") == [key, val]
    ensures GoodToken(Field(key, val))
    ensures forall f :: ParseField(f, Field(key, val)) == ParseKey(f, key, val)
  {
    CharFree(key, '>');
    CharFree(val, '>');
    var parts := [key, val];
    SplitOfJoin(parts, ">");
    assert parts[1..] == [val];
  }

  predicate GoodToken(t: string) { t != "" && t[0] != '\\' && ' ' !in t }

  lemma {:induction false} BlankIsFollowed(toks: seq<string>)
    requires toks != [] && forall t :: t in toks ==> GoodToken(t)
    ensures var s := Join(toks, " ");
            && s != "" && s[0] != '\\'
            && forall j :: 0 <= j < |s| && s[j] == ' ' ==> j + 1 < |s| && s[j + 1] != '\\'
  {
    var t := toks[0];
    assert GoodToken(t);
    if |toks| > 1 {
      var rest := Join(toks[1..], " ");
      BlankIsFollowed(toks[1..]);
      BlankAfterToken(t, rest);
    }
  }

  lemma BlankAfterToken(t: string, rest: string)
    requires GoodToken(t) && rest != "" && rest[0] != '\\'
    requires forall j :: 0 <= j < |rest| && rest[j] == ' ' ==> j + 1 < |rest| && rest[j + 1] != '\\'
    ensures var s := t + " " + rest;
            && s[0] != '\\'
            && forall j :: 0 <= j < |s| && s[j] == ' ' ==> j + 1 < |s| && s[j + 1] != '\\'
  {
    var s := t + " " + rest;
    forall j | 0 <= j < |s| && s[j] == ' ' ensures j + 1 < |s| && s[j + 1] != '\\' {
      if j > |t| {
        assert s[j] == rest[j - |t| - 1];
      }
    }
  }

  /** No separator starts inside text in which every blank is followed by something but a backslash. */
  lemma NoSeparator(s: string, tail: string)
    requires forall j :: 0 <= j < |s| && s[j] == ' ' ==> j + 1 < |s| && s[j + 1] != '\\'
    ensures forall j :: 0 <= j < |s| ==> !At(s + tail, SEP, j)
  {
    forall j | 0 <= j < |s| ensures !At(s + tail, SEP, j) {
      assert SEP[0] == ' ' && SEP[1] == '\\';
      if j + |SEP| <= |s + tail| {
        assert (s + tail)[j..j + |SEP|][0] == s[j];
        assert (s + tail)[j..j + |SEP|][1] == (s + tail)[j + 1];
      }
    }
  }

  lemma PrintedIsGood(key: string, n: nat)
    requires GoodKey(key)
    ensures GoodField(key, Print(n, 10)) && GoodField(key, Print(n, 16))
  {
    DigitsOnly(n, ' ');
    DigitsOnly(n, '>');
    PrintedDigits(n, 10);
    PrintedDigits(n, 16);
  }

  predicate GoodKey(key: string) { key != "" && key[0] != '\\' && ' ' !in key && '>' !in key }

  lemma SignedIsGood(key: string, i: int)
    requires GoodKey(key)
    ensures GoodField(key, PrintSigned(i))
  {
    PrintedIsGood(key, if i < 0 then -i else i);
  }

  lemma ParseHex(f: Entry, key: string, n: nat)
    requires n < U64 && GoodKey(key)
    ensures var tok := Field(key, Print(n, 16));
            GoodToken(tok) && ParseField(f, tok) == ParseKey(f, key, Print(n, 16))
    ensures StrToULL(Print(n, 16), 16) == n && (n < U32 ==> Low32(n) == n)
  {
    PrintedIsGood(key, n);
    SplitField(key, Print(n, 16));
    PrintRoundTrip(n, 16);
  }

  lemma LowIsRemainder(u: nat)
    ensures Low32(u) == u % 0x1_0000_0000
  {
  }

  lemma ReadHexKey(f: Entry, key: string, n: nat)
    requires n < U64 && GoodKey(key)
    ensures ParseField(f, key + ">" + Print(n, 16)) == ParseKey(f, key, Print(n, 16))
    ensures StrToULL(Print(n, 16), 16) == n
  {
    ParseHex(f, key, n);
    assert Field(key, Print(n, 16)) == key + ">" + Print(n, 16);
  }

  /** Modes and owners are narrowed to 32 bits on reading. */
  lemma ReadNarrows(f: Entry, n: nat)
    requires n < 0x1_0000_0000_0000_0000
    ensures ParseField(f, "mode" + ">" + Print(n, 16)) == Ok(f.(mode := n % 0x1_0000_0000))
    ensures ParseField(f, "uid" + ">" + Print(n, 16)) == Ok(f.(uid := n % 0x1_0000_0000))
    ensures ParseField(f, "gid" + ">" + Print(n, 16)) == Ok(f.(gid := n % 0x1_0000_0000))
  {
    LowIsRemainder(n);
    ReadHexKey(f, "mode", n);
    ReadHexKey(f, "uid", n);
    ReadHexKey(f, "gid", n);
  }

  lemma ParseMode(f: Entry, n: nat)
    requires n < U32
    ensures var tok := Field("mode", Print(n, 16)); GoodToken(tok) && ParseField(f, tok) == Ok(f.(mode := n))
  {
    ParseHex(f, "mode", n);
  }

  lemma ParseUid(f: Entry, n: nat)
    requires n < U32
    ensures var tok := Field("uid", Print(n, 16)); GoodToken(tok) && ParseField(f, tok) == Ok(f.(uid := n))
  {
    ParseHex(f, "uid", n);
  }

  lemma ParseGid(f: Entry, n: nat)
    requires n < U32
    ensures var tok := Field("gid", Print(n, 16)); GoodToken(tok) && ParseField(f, tok) == Ok(f.(gid := n))
  {
    ParseHex(f, "gid", n);
  }

  lemma ParseTime(f: Entry, t: TimeSpec)
    requires Representable(t)
    ensures var tok := Field("mtime", Print(TimeSpecToNs(t), 16)); GoodToken(tok) && ParseField(f, tok) == Ok(f.(mtime := t))
  {
    TimeRoundTrip(t);
    ParseHex(f, "mtime", TimeSpecToNs(t));
  }

  lemma ParseDecimal(f: Entry, key: string, i: int)
    requires INT64_MIN <= i < I63 && GoodKey(key)
    ensures var tok := Field(key, PrintSigned(i));
            && GoodToken(tok)
            && (key == "size" ==> ParseField(f, tok) == Ok(f.(size := i)))
            && (key == "U" || key == "C" ==> ParseField(f, tok) == Ok(f.(finfo := i, flag := key[0])))
  {
    SignedIsGood(key, i);
    SplitField(key, PrintSigned(i));
    SignedRoundTrip(i);
  }

  lemma ParseAcl(f: Entry, acl: string)
    requires acl != "" && ' ' !in acl && '>' !in acl
    ensures GoodToken(Field("acl", acl)) && ParseField(f, Field("acl", acl)) == Ok(f.(acl := acl))
  {
    SplitField("acl", acl);
  }

  lemma ParseCons(f: Entry, tok: string, rest: seq<string>, g: Entry)
    requires ParseField(f, tok) == Ok(g)
    ensures ParseFields(f, [tok] + rest) == ParseFields(g, rest)
  {
    assert ([tok] + rest)[1..] == rest;
  }

  lemma ParseStats(f: Entry, e: Entry, rest: seq<string>)
    requires Storable(e)
    ensures forall t :: t in StatFields(e) ==> GoodToken(t)
    ensures ParseFields(f, StatFields(e) + rest)
         == ParseFields(f.(mode := e.mode, uid := e.uid, gid := e.gid, size := e.size, mtime := e.mtime), rest)
  {
    var s := StatFields(e);
    var f1 := f.(mode := e.mode);
    var f2 := f1.(uid := e.uid);
    var f3 := f2.(gid := e.gid);
    var f4 := f3.(size := e.size);
    ParseMode(f, e.mode);
    ParseUid(f1, e.uid);
    ParseGid(f2, e.gid);
    ParseDecimal(f3, "size", e.size);
    ParseTime(f4, e.mtime);
    ParseFive(f, f1, f2, f3, f4, f4.(mtime := e.mtime), s, rest);
  }

  lemma ParseFive(f0: Entry, f1: Entry, f2: Entry, f3: Entry, f4: Entry, f5: Entry, s: seq<string>, rest: seq<string>)
    requires |s| == 5
    requires ParseField(f0, s[0]) == Ok(f1) && ParseField(f1, s[1]) == Ok(f2) && ParseField(f2, s[2]) == Ok(f3)
    requires ParseField(f3, s[3]) == Ok(f4) && ParseField(f4, s[4]) == Ok(f5)
    ensures ParseFields(f0, s + rest) == ParseFields(f5, rest)
  {
    ParseCons(f4, s[4], rest, f5);
    ParseCons(f3, s[3], [s[4]] + rest, f4);
    ParseCons(f2, s[2], [s[3]] + ([s[4]] + rest), f3);
    ParseCons(f1, s[1], [s[2]] + ([s[3]] + ([s[4]] + rest)), f2);
    ParseCons(f0, s[0], [s[1]] + ([s[2]] + ([s[3]] + ([s[4]] + rest))), f1);
    assert s + rest == [s[0]] + ([s[1]] + ([s[2]] + ([s[3]] + ([s[4]] + rest))));
  }

  function AclField(e: Entry): seq<string> { if e.acl != "" then [Field("acl", e.acl)] else [] }

  function FInfoField(e: Entry): seq<string> {
    if e.finfo != INT64_MIN then [Field([e.flag], PrintSigned(e.finfo))] else []
  }

  /** Reading the attributes of a storable entry restores every field but the link target. */
  lemma ParseAttributes(e: Entry, blank: Entry)
    requires Storable(e)
    ensures forall t :: t in Fields(e) ==> GoodToken(t)
    ensures ParseFields(Fresh(blank, e.name), Fields(e)) == Ok(e.(link := ""))
  {
    var f := Fresh(blank, e.name);
    var g := f.(mode := e.mode, uid := e.uid, gid := e.gid, size := e.size, mtime := e.mtime);
    var h := g.(acl := e.acl);
    ParseStats(f, e, AclField(e) + FInfoField(e));
    assert Fields(e) == StatFields(e) + (AclField(e) + FInfoField(e));
    if e.acl != "" {
      ParseAcl(g, e.acl);
      ParseCons(g, Field("acl", e.acl), FInfoField(e), h);
    } else {
      assert AclField(e) + FInfoField(e) == FInfoField(e);
    }
    if e.finfo != INT64_MIN {
      ParseDecimal(h, [e.flag], e.finfo);
      ParseCons(h, Field([e.flag], PrintSigned(e.finfo)), [], h.(finfo := e.finfo, flag := e.flag));
      assert FInfoField(e) + [] == FInfoField(e);
    }
  }

  lemma AttributesSplit(e: Entry)
    requires forall t :: t in Fields(e) ==> GoodToken(t)
    ensures Split(Attributes(e), " ") == Fields(e)
    ensures Attributes(e) != "" && Find(Attributes(e), SEP) == -1
    ensures Find(Attributes(e) + SEP, SEP) == |Attributes(e)|
  {
    var toks, s := Fields(e), Attributes(e);
    forall k | 0 <= k < |toks|
      ensures toks[k] != "" && Find(toks[k], " ") == -1 && Find(toks[k] + " ", " ") == |toks[k]|
    {
      assert GoodToken(toks[k]);
      CharFree(toks[k], ' ');
    }
    SplitOfJoin(toks, " ");
    BlankIsFollowed(toks);
    SeparatorOnlyAfter(s);
  }

  lemma SeparatorOnlyAfter(s: string)
    requires forall j :: 0 <= j < |s| && s[j] == ' ' ==> j + 1 < |s| && s[j + 1] != '\\'
    ensures Find(s, SEP) == -1 && Find(s + SEP, SEP) == |s|
  {
    NoSeparator(s, "");
    NoSeparator(s, SEP);
    assert s + "" == s;
    FindFirst(s, SEP);
    assert (s + SEP)[|s|..|s| + |SEP|] == SEP;
    FindIs(s + SEP, SEP, |s|);
  }

  lemma LinkSplit(link: string)
    ensures Find(Field("slink", link), SEP) == if Find(link, SEP) == -1 then -1 else Find(link, SEP) + 6
  {
    var s := Field("slink", link);
    FindFirst(link, SEP);
    FindFirst(s, SEP);
    forall j: nat ensures At(s, SEP, j) <==> j >= 6 && At(link, SEP, j - 6) {
      if j >= 6 && j + |SEP| <= |s| { assert link[j - 6..j - 6 + |SEP|] == s[j..j + |SEP|]; }
      if j + |SEP| <= |s| { assert s[j..j + |SEP|][0] == s[j] && SEP[0] == ' '; }
    }
    if Find(link, SEP) != -1 { FindIs(s, SEP, Find(link, SEP) + 6); }
  }

  /** A printed line parses back to its entry exactly when the name does not run into the separator and a link target
      does not contain it. */
  lemma LineRoundTrip(e: Entry, blank: Entry)
    requires Storable(e)
    ensures Parse(Line(e), blank) == Ok(e) <==> LineParses(e)
  {
    var cuts := Cuts(e);
    LinkModes(e.mode);
    ParseAttributes(e, blank);
    AttributesSplit(e);
    LinkSplit(e.link);
    if LineParses(e) {
      assert Splittable(cuts, SEP);
      SplitOfJoin(cuts, SEP);
      if IsLink(e.mode) { assert Field("slink", e.link)[..6] == "slink>" && Field("slink", e.link)[6..] == e.link; }
    } else if NameParses(e.name) {
      WrongTarget(e, blank);
    } else {
      WrongName(e, blank);
    }
  }

  /** The line of a symbolic link, and of nothing else, ends on its target. */
  lemma LinkLine(e: Entry, blank: Entry)
    requires Storable(e)
    ensures 0xA000 <= e.mode % 0x10000 < 0xB000 ==>
              && Line(e) == e.name + SEP + (Attributes(e) + SEP + ("slink>" + e.link))
              && (LineParses(e) ==> Parse(Line(e), blank) == Ok(e))
    ensures !(0xA000 <= e.mode % 0x10000 < 0xB000) ==>
              && Line(e) == e.name + SEP + Attributes(e) && Find(Attributes(e), SEP) == -1
              && (NameParses(e.name) ==> |Split(Line(e), SEP)| == 2)
  {
    LinkModes(e.mode);
    LineRoundTrip(e, blank);
    if IsLink(e.mode) { LineOfLink(e); } else { LineOfOther(e, blank); }
  }

  lemma LineOfOther(e: Entry, blank: Entry)
    requires Storable(e) && !IsLink(e.mode)
    ensures Line(e) == e.name + SEP + Attributes(e) && Find(Attributes(e), SEP) == -1
    ensures NameParses(e.name) ==> |Split(Line(e), SEP)| == 2
  {
    ParseAttributes(e, blank);
    AttributesSplit(e);
    TwoCuts(e);
    TwoPieces(e.name, Attributes(e));
  }

  lemma TwoCuts(e: Entry)
    requires !IsLink(e.mode)
    ensures Line(e) == e.name + SEP + Attributes(e)
  {
    JoinCons(e.name, [Attributes(e)], SEP);
    assert [e.name] + [Attributes(e)] == Cuts(e);
  }

  lemma TwoPieces(name: string, rest: string)
    requires rest != "" && Find(rest, SEP) == -1
    ensures NameParses(name) ==> |Split(name + SEP + rest, SEP)| == 2
  {
    if NameParses(name) {
      SplitFront(name, rest);
      SplitUnfold(rest, SEP);
    }
  }

  lemma LineOfLink(e: Entry)
    requires IsLink(e.mode)
    ensures Line(e) == e.name + SEP + (Attributes(e) + SEP + ("slink>" + e.link))
  {
    var target := Field("slink", e.link);
    JoinCons(Attributes(e), [target], SEP);
    JoinCons(e.name, [Attributes(e), target], SEP);
    assert [Attributes(e)] + [target] == [Attributes(e), target] && [e.name] + [Attributes(e), target] == Cuts(e);
    assert target == "slink>" + e.link;
  }

  /** A separator in the target makes a fourth piece, or cuts the target short. */
  lemma WrongTarget(e: Entry, blank: Entry)
    requires NameParses(e.name) && IsLink(e.mode) && Find(e.link, SEP) != -1
    requires Find(Attributes(e) + SEP, SEP) == |Attributes(e)|
    ensures var r := Parse(Line(e), blank); r.Ok? ==> r.value.link != e.link
  {
    var target := Field("slink", e.link);
    TargetLine(e, target);
    LinkSplit(e.link);
    SplitUnfold(target, SEP);
    var q := Find(target, SEP);
    var cut := Split(Line(e), SEP);
    assert cut[2] == target[..q] && |target[..q]| < |target|;
    if |cut| == 3 { assert |cut[2][6..]| < |e.link|; }
  }

  lemma TargetLine(e: Entry, target: string)
    requires NameParses(e.name) && IsLink(e.mode) && target == Field("slink", e.link)
    requires Find(Attributes(e) + SEP, SEP) == |Attributes(e)|
    ensures Split(Line(e), SEP) == [e.name, Attributes(e)] + Split(target, SEP)
  {
    var rest := Attributes(e) + SEP + target;
    JoinCons(Attributes(e), [target], SEP);
    JoinCons(e.name, [Attributes(e), target], SEP);
    assert [Attributes(e)] + [target] == [Attributes(e), target] && [e.name] + [Attributes(e), target] == Cuts(e);
    SplitFront(e.name, rest);
    SplitFront(Attributes(e), target);
    assert [e.name] + ([Attributes(e)] + Split(target, SEP)) == [e.name, Attributes(e)] + Split(target, SEP);
  }

  lemma SplitFront(t: string, rest: string)
    requires Find(t + SEP, SEP) == |t|
    ensures Split(t + SEP + rest, SEP) == [t] + Split(rest, SEP)
  {
    SplitHead(t, SEP, rest);
    var cut := Split(t + SEP + rest, SEP);
    assert cut == [cut[0]] + cut[1..];
  }

  lemma WrongName(e: Entry, blank: Entry)
    requires !NameParses(e.name)
    ensures var r := Parse(Line(e), blank); r.Ok? ==> r.value.name != e.name
  {
    var cuts := Cuts(e);
    var rest := Join(cuts[1..], SEP);
    SplitHead(e.name, SEP, rest);
    assert Line(e) == e.name + SEP + rest;
    var cut := Split(Line(e), SEP);
    if |cut| == 2 || |cut| == 3 {
      KeepsName(Fresh(blank, cut[0]), Split(cut[1], " "));
    }
  }

  lemma {:induction false} KeepsName(e: Entry, toks: seq<string>)
    ensures var r := ParseFields(e, toks); r.Ok? ==> r.value.name == e.name
    decreases |toks|
  {
    if toks != [] {
      var f := ParseField(e, toks[0]);
      if f.Ok? {
        KeepsName(f.value, toks[1..]);
      }
    }
  }

  /** A name may be free of separators and still not parse: its end and the separator form an earlier one. */
  lemma OverlappingName()
    ensures Find(SEP[..8], SEP) == -1 && !NameParses(SEP[..8])
  {
    var name := SEP[..8];
    assert |name| < |SEP|;
    assert SEP[8] == SEP[0];
    var s := name + SEP;
    assert s[0..9] == SEP;
    FindIs(s, SEP, 0);
  }

  /** A whole List file reads back entry by entry. */
  function ListText(entries: seq<Entry>): string {
    if entries == [] then "" else Line(entries[0]) + "\n" + ListText(entries[1..])
  }

  function ParseAll(lines: seq<string>, blank: Entry): Result<seq<Entry>> {
    if lines == [] then Ok([])
    else match Parse(lines[0], blank)
      case Err(m) => Err(m)
      case Ok(e) =>
        match ParseAll(lines[1..], blank)
        case Err(m) => Err(m)
        case Ok(es) => Ok([e] + es)
  }

  function ReadList(text: string, blank: Entry): Result<seq<Entry>> { ParseAll(GetLines(text), blank) }

  predicate NewlineFree(e: Entry) { '\n' !in e.name && '\n' !in e.acl && '\n' !in e.link }

  predicate Listable(e: Entry) { Storable(e) && LineParses(e) && NewlineFree(e) }

  function LinesOf(entries: seq<Entry>): seq<string> {
    if entries == [] then [] else [Line(entries[0])] + LinesOf(entries[1..])
  }

  lemma {:induction false} ListIsLines(entries: seq<Entry>)
    ensures ListText(entries) == Lines(LinesOf(entries))
    ensures forall l :: l in LinesOf(entries) <==> exists e :: e in entries && l == Line(e)
  {
    if entries != [] {
      ListIsLines(entries[1..]);
      assert LinesOf(entries)[1..] == LinesOf(entries[1..]);
      assert forall e :: e in entries <==> e == entries[0] || e in entries[1..];
    }
  }

  /** Given its lines, a list parses back exactly when each line does. */
  lemma {:induction false} ParseLinesOf(entries: seq<Entry>, blank: Entry)
    requires forall e :: e in entries ==> Storable(e)
    ensures ParseAll(LinesOf(entries), blank) == Ok(entries) <==> forall e :: e in entries ==> LineParses(e)
  {
    if entries != [] {
      var e, rest := entries[0], entries[1..];
      assert LinesOf(entries)[1..] == LinesOf(rest) && LinesOf(entries)[0] == Line(e);
      assert forall x :: x in entries <==> x == e || x in rest;
      LineRoundTrip(e, blank);
      ParseLinesOf(rest, blank);
      ParseOneMore(Line(e), LinesOf(rest), e, rest, blank);
      assert [e] + rest == entries;
    }
  }

  lemma ParseOneMore(line: string, lines: seq<string>, e: Entry, es: seq<Entry>, blank: Entry)
    ensures ParseAll([line] + lines, blank) == Ok([e] + es)
            <==> Parse(line, blank) == Ok(e) && ParseAll(lines, blank) == Ok(es)
  {
    assert ([line] + lines)[1..] == lines;
    var p, ps := Parse(line, blank), ParseAll(lines, blank);
    if p.Ok? && ps.Ok? && [p.value] + ps.value == [e] + es {
      assert ([p.value] + ps.value)[0] == ([e] + es)[0];
      assert ([p.value] + ps.value)[1..] == ps.value && ([e] + es)[1..] == es;
    }
  }

  function Newlines(s: string): nat {
    if s == "" then 0 else Newlines(s[..|s| - 1]) + if s[|s| - 1] == '\n' then 1 else 0
  }

  lemma {:induction false} NewlinesConcat(a: string, b: string)
    ensures Newlines(a + b) == Newlines(a) + Newlines(b)
  {
    if b == "" {
      assert a + b == a;
    } else {
      assert (a + b)[..|a + b| - 1] == a + b[..|b| - 1];
      NewlinesConcat(a, b[..|b| - 1]);
    }
  }

  lemma {:induction false} NoNewlines(s: string)
    ensures Newlines(s) == 0 <==> '\n' !in s
  {
    if s != "" {
      NoNewlines(s[..|s| - 1]);
      assert s == s[..|s| - 1] + [s[|s| - 1]];
    }
  }

  lemma NewlineBetween(a: string, b: string)
    ensures Newlines(a + "\n" + b) == Newlines(a) + 1 + Newlines(b)
  {
    NewlinesConcat(a + "\n", b);
    assert (a + "\n")[..|a + "\n"| - 1] == a;
  }

  /** The first line and its newline. */
  lemma CutNewline(s: string, i: nat)
    requires i == Find(s, "\n") < |s|
    ensures Newlines(s) == 1 + Newlines(s[i + 1..])
  {
    FindCut(s, "\n");
    NoneBefore(s, i);
    NewlineBetween(s[..i], s[i + 1..]);
  }

  /** `getline` finds as many lines as there are newlines, when the text ends on one. */
  lemma {:induction false} LinesAreCounted(s: string)
    requires s != "" ==> s[|s| - 1] == '\n'
    ensures |GetLines(s)| == Newlines(s)
    decreases |s|
  {
    if s != "" {
      FindFirst(s, "\n");
      assert s[|s| - 1..|s|] == "\n" && At(s, "\n", |s| - 1);
      var i := Find(s, "\n");
      SplitUnfold(s, "\n");
      CutNewline(s, i);
      LinesAreCounted(s[i + 1..]);
    }
  }

  lemma NoneBefore(s: string, i: nat)
    requires i == Find(s, "\n") < |s|
    ensures Newlines(s[..i]) == 0
  {
    FindFirst(s, "\n");
    forall j | 0 <= j < i ensures s[j] != '\n' {
      assert !At(s, "\n", j);
      assert s[j..j + 1] == [s[j]];
    }
    NoNewlines(s[..i]);
  }

  lemma {:induction false} TextNewlines(lines: seq<string>)
    ensures Newlines(Lines(lines)) >= |lines|
    ensures Newlines(Lines(lines)) == |lines| ==> forall l :: l in lines ==> '\n' !in l
    ensures Lines(lines) != "" ==> Lines(lines)[|Lines(lines)| - 1] == '\n'
  {
    if lines != [] {
      TextNewlines(lines[1..]);
      NewlinesConcat(lines[0] + "\n", Lines(lines[1..]));
      NewlinesConcat(lines[0], "\n");
      NewlinesConcat("", "\n");
      NoNewlines(lines[0]);
      assert forall l :: l in lines <==> l == lines[0] || l in lines[1..];
    }
  }

  lemma {:induction false} ParsedLength(lines: seq<string>, blank: Entry)
    ensures var r := ParseAll(lines, blank); r.Ok? ==> |r.value| == |lines|
  {
    if lines != [] {
      ParsedLength(lines[1..], blank);
    }
  }

  lemma {:induction false} LinesOfLength(entries: seq<Entry>)
    ensures |LinesOf(entries)| == |entries|
  {
    if entries != [] {
      LinesOfLength(entries[1..]);
    }
  }

  lemma {:induction false} JoinHas(toks: seq<string>, sep: string, k: nat, c: char)
    requires k < |toks| && c in toks[k]
    ensures c in Join(toks, sep)
  {
    if k > 0 {
      JoinHas(toks[1..], sep, k - 1, c);
    }
  }

  /** A newline in an entry shows in its line. */
  lemma NewlineShows(e: Entry)
    requires Storable(e)
    ensures NewlineFree(e) <==> '\n' !in Line(e)
  {
    if NewlineFree(e) {
      NoNewline(e);
    } else {
      LinkModes(e.mode);
      NewlineGoesOn(e);
    }
  }

  lemma NewlineGoesOn(e: Entry)
    requires '\n' in e.name || '\n' in e.acl || (IsLink(e.mode) && '\n' in e.link)
    ensures '\n' in Line(e)
  {
    if '\n' in e.name {
      JoinHas(Cuts(e), SEP, 0, '\n');
    } else if '\n' in e.acl {
      assert Fields(e)[5] == Field("acl", e.acl);
      JoinHas(Fields(e), " ", 5, '\n');
      JoinHas(Cuts(e), SEP, 1, '\n');
    } else {
      JoinHas(Cuts(e), SEP, 2, '\n');
    }
  }

  /** If a list parses back, its lines have no newlines: each of them would have added a line. */
  lemma ReadBackIsNewlineFree(entries: seq<Entry>, blank: Entry)
    requires ReadList(ListText(entries), blank) == Ok(entries)
    ensures forall l :: l in LinesOf(entries) ==> '\n' !in l
  {
    var lines := LinesOf(entries);
    ListIsLines(entries);
    LinesOfLength(entries);
    TextNewlines(lines);
    LinesAreCounted(Lines(lines));
    ParsedLength(GetLines(Lines(lines)), blank);
  }

  /** A list reads back as it was printed exactly when no name runs into the separator and no entry has a newline. */
  lemma ListRoundTrip(entries: seq<Entry>, blank: Entry)
    requires forall e :: e in entries ==> Storable(e)
    ensures ReadList(ListText(entries), blank) == Ok(entries) <==> forall e :: e in entries ==> Listable(e)
  {
    var lines := LinesOf(entries);
    ListIsLines(entries);
    forall e | e in entries ensures Line(e) in lines && (NewlineFree(e) <==> '\n' !in Line(e)) { NewlineShows(e); }
    if ReadList(ListText(entries), blank) == Ok(entries) { ReadBackIsNewlineFree(entries, blank); }
    if forall l :: l in lines ==> '\n' !in l {
      LinesRoundTrip(lines);
      ParseLinesOf(entries, blank);
    } else {
      var l :| l in lines && '\n' in l;
      var e :| e in entries && l == Line(e);
      assert !Listable(e);
    }
  }

  lemma {:induction false} JoinFree(toks: seq<string>, sep: string, c: char)
    requires c !in sep && forall t :: t in toks ==> c !in t
    ensures c !in Join(toks, sep)
  {
    if |toks| > 1 {
      JoinFree(toks[1..], sep, c);
    }
  }

  lemma NoNewline(e: Entry)
    requires Storable(e) && NewlineFree(e)
    ensures '\n' !in Line(e)
  {
    StatsFree(e);
    DigitsOnly(if e.finfo < 0 then -e.finfo else e.finfo, '\n');
    FieldFree("acl", e.acl);
    FieldFree([e.flag], PrintSigned(e.finfo));
    FieldFree("slink", e.link);
    JoinFree(Fields(e), " ", '\n');
    JoinFree(Cuts(e), SEP, '\n');
  }

  lemma FieldFree(key: string, val: string)
    ensures '\n' !in key && '\n' !in val ==> '\n' !in Field(key, val)
  {
  }

  lemma StatsFree(e: Entry)
    ensures forall t :: t in StatFields(e) ==> '\n' !in t
  {
    DigitsOnly(e.mode, '\n');
    DigitsOnly(e.uid, '\n');
    DigitsOnly(e.gid, '\n');
    DigitsOnly(if e.size < 0 then -e.size else e.size, '\n');
    DigitsOnly(TimeSpecToNs(e.mtime), '\n');
    FieldFree("mode", Print(e.mode, 16));
    FieldFree("uid", Print(e.uid, 16));
    FieldFree("gid", Print(e.gid, 16));
    FieldFree("size", PrintSigned(e.size));
    FieldFree("mtime", Print(TimeSpecToNs(e.mtime), 16));
  }
}
