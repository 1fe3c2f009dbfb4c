/** The text of an FInfo block: one line per chunk of a file (Archive.cpp). */
module FInfos {
  import opened Common
  import opened Text
  import opened Numbers

  /** `ChunkInfo` */
  datatype Chunk = Chunk(flag: char, idx: int, hash: string)

  const UNCOMPRESSED := 'U'
  const COMPRESSED := 'C'

  predicate Flag(c: char) { c == UNCOMPRESSED || c == COMPRESSED }

  function ChunkLine(c: Chunk): string {
    [c.flag] + "-" + (PrintSigned(c.idx) + " " + c.hash)
  }

  function FInfoText(chunks: seq<Chunk>): string {
    if chunks == [] then "" else ChunkLine(chunks[0]) + "\n" + FInfoText(chunks[1..])
  }

  /** `stoull`: throws when there is no digit, or too large a number. */
  function StoULL(s: string): Result<nat> {
    var t := SkipSpace(s);
    var u := if t != "" && (t[0] == '-' || t[0] == '+') then t[1..] else t;
    if u == "" || DigitValue(u[0]) >= 10 then Err("stoull")
    else if Accumulate(u, 10, 0) >= U64 then Err("stoull")
    else Ok(StrToULL(s, 10))
  }

  function ParseLine(line: string): Result<Chunk> {
    if |line| < 3 || !Flag(line[0]) || line[1] != '-' then Err("Illegal FInfo format")
    else
      var parts := Split(line[2..], " ");
      if |parts| != 2 then Err("Illegal FInfo format")
      else match StoULL(parts[0])
        case Err(e) => Err(e)
        case Ok(u) => Ok(Chunk(line[0], ToI64(u), parts[1]))
  }

  function ParseLines(lines: seq<string>): Result<seq<Chunk>> {
    if lines == [] then Ok([])
    else match ParseLine(lines[0])
      case Err(e) => Err(e)
      case Ok(c) =>
        Prepend([c], ParseLines(lines[1..]))
  }

  function Parse(text: string): Result<seq<Chunk>> { ParseLines(GetLines(text)) }

  function Prepend(front: seq<Chunk>, r: Result<seq<Chunk>>): Result<seq<Chunk>> {
    match r
    case Err(e) => Err(e)
    case Ok(cs) => Ok(front + cs)
  }

  lemma PrependNothing(r: Result<seq<Chunk>>)
    ensures Prepend([], r) == r
  {
    if r.Ok? { assert [] + r.value == r.value; }
  }

  lemma PrependTwice(front: seq<Chunk>, c: Result<Chunk>, r: Result<seq<Chunk>>)
    ensures c.Ok? ==> Prepend(front, Prepend([c.value], r)) == Prepend(front + [c.value], r)
  {
    if c.Ok? && r.Ok? { Reassociate(front, [c.value], r.value); }
  }

  /** The loop of the `ArchFileRead` constructor; an exception leaves it at the first bad line. */
  method ParseFInfo(text: string) returns (r: Result<seq<Chunk>>)
    ensures r == Parse(text)
  {
    var lines := SplitStr(text, "\n");
    var chunks: seq<Chunk> := [];
    assert lines[0..] == lines;
    PrependNothing(Parse(text));
    for i := 0 to |lines|
      invariant Parse(text) == Prepend(chunks, ParseLines(lines[i..]))
    {
      var line := lines[i];
      assert lines[i..][1..] == lines[i + 1..];
      PrependTwice(chunks, ParseLine(line), ParseLines(lines[i + 1..]));
      var c := ParseLine(line);
      if c.Err? {
        return Err(c.message);
      }
      chunks := chunks + [c.value];
    }
    assert lines[|lines|..] == [];
    assert chunks + [] == chunks;
    return Ok(chunks);
  }

  /** What `HashAndCompressJob` records: hashes are hex text. */
  predicate Printable(c: Chunk) {
    Flag(c.flag) && 0 <= c.idx < I63 && c.hash != "" && ' ' !in c.hash && '\n' !in c.hash
  }

  lemma DigitsOnly(n: nat, c: char)
    requires c == ' ' || c == '\n' || c == '>' || c == '\\'
    ensures c !in Print(n, 10) && c !in Print(n, 16)
  {
    PrintedDigits(n, 10);
    PrintedDigits(n, 16);
    assert DigitValue(c) == 99;
  }

  lemma StoULLRoundTrip(n: nat)
    ensures if n < 0x1_0000_0000_0000_0000 then StoULL(Print(n, 10)) == Ok(n) else StoULL(Print(n, 10)).Err?
  {
    PrintedDigits(n, 10);
    PrintRoundTrip(n, 10);
    assert DigitValue(Print(n, 10)[0]) < 10;
  }

  lemma LineParts(c: Chunk)
    requires Printable(c)
    ensures var line := ChunkLine(c);
            |line| >= 3 && line[0] == c.flag && line[1] == '-' && line[2..] == Print(c.idx, 10) + " " + c.hash
    ensures '\n' !in ChunkLine(c)
  {
    DigitsOnly(c.idx, '\n');
  }

  lemma LineRoundTrip(c: Chunk)
    requires Printable(c)
    ensures ParseLine(ChunkLine(c)) == Ok(c)
    ensures '\n' !in ChunkLine(c)
  {
    LineParts(c);
    DigitsOnly(c.idx, ' ');
    SplitInTwo(Print(c.idx, 10), c.hash);
    StoULLRoundTrip(c.idx);
  }

  lemma SplitInTwo(a: string, b: string)
    requires ' ' !in a && ' ' !in b && b != ""
    ensures Split(a + " " + b, " ") == [a, b]
  {
    var parts := [a, b];
    CharFree(a, ' ');
    CharFree(b, ' ');
    SplitOfJoin(parts, " ");
    assert parts[1..] == [b];
  }

  lemma {:induction false} FInfoIsLines(chunks: seq<Chunk>) returns (lines: seq<string>)
    requires forall c :: c in chunks ==> Printable(c)
    ensures FInfoText(chunks) == Lines(lines) && ParseLines(lines) == Ok(chunks)
    ensures forall l :: l in lines ==> '\n' !in l
  {
    lines := [];
    if chunks != [] {
      var rest := FInfoIsLines(chunks[1..]);
      LineRoundTrip(chunks[0]);
      lines := [ChunkLine(chunks[0])] + rest;
      assert lines[1..] == rest;
      assert [chunks[0]] + chunks[1..] == chunks;
    }
  }

  /** Parsing the text written for a chunk list gives the list back. */
  lemma FInfoRoundTrip(chunks: seq<Chunk>)
    requires forall c :: c in chunks ==> Printable(c)
    ensures Parse(FInfoText(chunks)) == Ok(chunks)
  {
    var lines := FInfoIsLines(chunks);
    LinesRoundTrip(lines);
  }

  lemma {:induction false} FInfoTextSnoc(chunks: seq<Chunk>, c: Chunk)
    ensures FInfoText(chunks + [c]) == FInfoText(chunks) + (ChunkLine(c) + "\n")
  {
    if chunks == [] {
      assert chunks + [c] == [c] && [c][1..] == [];
    } else {
      var rest := chunks[1..];
      FInfoTextSnoc(rest, c);
      assert (chunks + [c])[1..] == rest + [c];
      Reassociate(ChunkLine(chunks[0]) + "\n", FInfoText(rest), ChunkLine(c) + "\n");
    }
  }

  /** A line as `ChunkLine` writes it, or with one more blank at the end. */
  predicate LineOf(line: string, flag: char, num: string, hash: string) {
    && Flag(flag) && ' ' !in num && ' ' !in hash && StoULL(num).Ok?
    && ((hash != "" && line == [flag] + "-" + (num + " " + hash)) || line == [flag] + "-" + (num + " " + hash + " "))
  }

  lemma SplitBlank(num: string, hash: string)
    requires ' ' !in num && ' ' !in hash
    ensures Split(num + " " + hash + " ", " ") == [num, hash]
  {
    CharFree(num, ' ');
    CharFree(hash, ' ');
    SplitHead(num, " ", hash + " ");
    SplitHead(hash, " ", "");
    assert num + " " + hash + " " == num + " " + (hash + " ") && hash + " " + "" == hash + " ";
    var a, b := Split(num + " " + (hash + " "), " "), Split(hash + " ", " ");
    assert a == [a[0]] + a[1..] && b == [b[0]] + b[1..];
  }

  /** Every such line parses to its three parts. */
  lemma ParseLineReads(line: string, flag: char, num: string, hash: string)
    requires LineOf(line, flag, num, hash)
    ensures ParseLine(line) == Ok(Chunk(flag, ToI64(StoULL(num).value), hash))
  {
    if line == [flag] + "-" + (num + " " + hash + " ") {
      SplitBlank(num, hash);
      assert line[2..] == num + " " + hash + " ";
    } else {
      SplitInTwo(num, hash);
      assert line[2..] == num + " " + hash;
    }
  }

  /** And every line that parses is such a line. */
  lemma ParseLineShape(line: string) returns (num: string, hash: string)
    requires ParseLine(line).Ok?
    ensures LineOf(line, line[0], num, hash)
  {
    var body := line[2..];
    var parts := Split(body, " ");
    num, hash := parts[0], parts[1];
    PartsAreFree(body);
    JoinOfSplit(body, " ");
    assert parts == [num, hash] && [num, hash][1..] == [hash];
    assert line == [line[0]] + "-" + body;
    NoEmptyHash(num);
  }

  lemma NoEmptyHash(num: string)
    requires ' ' !in num
    ensures |Split(num + " " + "", " ")| == 1
  {
    CharFree(num, ' ');
    SplitHead(num, " ", "");
  }

  lemma PartsAreFree(body: string)
    ensures forall t :: t in Split(body, " ") ==> ' ' !in t
  {
    TokensAreFree(body, " ");
    forall t | t in Split(body, " ") ensures ' ' !in t {
      FindFirst(t, " ");
      forall j | 0 <= j < |t| ensures t[j] != ' ' { assert !At(t, " ", j) && t[j..j + 1] == [t[j]]; }
    }
  }
}
