/** Header lines of `git cat-file --batch`: word splitting and decimal sizes. */
module Headers {
  import opened Model

  predicate IsSpace(c: char) {
    c == ' ' || c == '\t' || c == '\n' || c == '\r' || c == 11 as char || c == 12 as char
  }

  predicate Word(s: string) {
    s != "" && forall i :: 0 <= i < |s| ==> !IsSpace(s[i])
  }

  /** strings.Fields; `word` is the word being read. */
  function Fields(s: string, word: string := ""): seq<string>
    decreases |s|
  {
    if s == "" then if word == "" then [] else [word]
    else if IsSpace(s[0]) then (if word == "" then [] else [word]) + Fields(s[1..], "")
    else Fields(s[1..], word + [s[0]])
  }

  lemma {:induction false} FieldsReadsWord(word: string, s: string, rest: string)
    requires Word(s) || s == ""
    ensures Fields(s + rest, word) == Fields(rest, word + s)
    decreases |s|
  {
    if s == "" {
      assert s + rest == rest && word + s == word;
    } else {
      assert (s + rest)[1..] == s[1..] + rest;
      FieldsReadsWord(word + [s[0]], s[1..], rest);
      assert word + [s[0]] + s[1..] == word + s;
    }
  }

  /** A line of words separated by single spaces splits into exactly those words. */
  lemma {:induction false} FieldsOfWord(s: string, rest: string)
    requires Word(s)
    ensures Fields(s) == [s]
    ensures Fields(s + " " + rest) == [s] + Fields(rest)
  {
    FieldsReadsWord("", s, "");
    assert s + "" == s && "" + s == s;
    FieldsReadsWord("", s, " " + rest);
    assert s + " " + rest == s + (" " + rest) && (" " + rest)[1..] == rest;
  }

  function Digit(d: nat): char
    requires d < 10
  {
    '0' + d as char
  }

  function Decimal(n: nat): string {
    if n < 10 then [Digit(n)] else Decimal(n / 10) + [Digit(n % 10)]
  }

  function Value(s: string): Option<nat> {
    if s == "" then Some(0)
    else
      var c, before := s[|s| - 1], Value(s[..|s| - 1]);
      if before.Some? && '0' <= c <= '9' then Some(10 * before.value + (c - '0') as int) else None
  }

  /** Only digits have a value. */
  lemma {:induction false} ValueIffDigits(s: string)
    ensures Value(s).Some? <==> forall i :: 0 <= i < |s| ==> '0' <= s[i] <= '9'
    decreases |s|
  {
    if s != "" {
      ValueIffDigits(s[..|s| - 1]);
      assert s == s[..|s| - 1] + [s[|s| - 1]];
    }
  }

  const MAX_INT64: int := 0x7FFF_FFFF_FFFF_FFFF

  /** strconv.ParseInt(s, 10, 64) */
  function ParseInt(s: string): Option<int> {
    var negative := s != "" && s[0] == '-';
    var digits := if s != "" && (s[0] == '-' || s[0] == '+') then s[1..] else s;
    if digits == "" || Value(digits).None? then None
    else
      var v: int := Value(digits).value;
      var n := if negative then 0 - v else v;
      if -MAX_INT64 - 1 <= n <= MAX_INT64 then Some(n) else None
  }

  lemma {:induction false} DecimalIsWord(n: nat)
    ensures Word(Decimal(n)) && '0' <= Decimal(n)[0] <= '9'
    ensures Value(Decimal(n)) == Some(n)
  {
    if n < 10 {
      assert Decimal(n)[..0] == "";
    } else {
      DecimalIsWord(n / 10);
      var s := Decimal(n);
      assert s[..|s| - 1] == Decimal(n / 10);
    }
  }

  /** Sizes survive the round trip through the header. */
  lemma ParseDecimal(n: nat)
    requires n <= MAX_INT64
    ensures ParseInt(Decimal(n)) == Some(n)
  {
    DecimalIsWord(n);
  }
}

/**
 * The framed request/response stream of one batch process, and the pool that reuses processes.
 * Bytes are characters.  A process between requests is at a response boundary when nothing of
 * an earlier response is left unread.
 */
module CatFile {
  import opened Headers
  import opened Model

  datatype Object = Object(typ: string, data: string)

  type Objects = map<string, Object>

  /** What a repository may hold: ids and type names are words, sizes fit the header. */
  ghost predicate Sound(objects: Objects) {
    forall oid :: oid in objects ==>
      Word(oid) && Word(objects[oid].typ) && |objects[oid].data| <= MAX_INT64
  }

  function Header(objects: Objects, oid: string): string {
    if oid in objects then oid + " " + (objects[oid].typ + " " + Decimal(|objects[oid].data|))
    else oid + " " + "missing"
  }

  /** The process's answer to one request line. */
  function Response(objects: Objects, oid: string): string {
    Header(objects, oid) + "\n" + if oid in objects then objects[oid].data + "\n" else ""
  }

  predicate IsBlob(objects: Objects, oid: string) {
    oid in objects && objects[oid].typ == "blob"
  }

  datatype Error = WriteFailed | BadHeader | Missing | ReadFailed | Desynchronized | DiskFailed | TooLarge | Cancelled |
    BadLimit

  datatype Result<+T> = Ok(value: T) | Err(error: Error)

  /** readObjectSize after the header line was read. */
  function ParseHeader(header: string, oid: string): (r: Result<int>)
    ensures r.Err? ==> r.error in {BadHeader, Missing}
  {
    var fields := Fields(header);
    if |fields| < 2 || fields[0] != oid then Err(BadHeader)
    else if fields[1] == "missing" then Err(Missing)
    else if |fields| < 3 || fields[1] != "blob" then Err(BadHeader)
    else match ParseInt(fields[2])
      case Some(size) => Ok(size)
      case None => Err(BadHeader)
  }

  /** The header of an answer parses to the size of exactly the requested blob, or to an error. */
  lemma HeaderParses(objects: Objects, oid: string)
    requires Sound(objects) && Word(oid)
    ensures ParseHeader(Header(objects, oid), oid) ==
              if oid !in objects then Err(Missing)
              else if objects[oid].typ == "missing" then Err(Missing)
              else if objects[oid].typ != "blob" then Err(BadHeader)
              else Ok(|objects[oid].data|)
  {
    if oid in objects {
      var o := objects[oid];
      DecimalIsWord(|o.data|);
      ParseDecimal(|o.data|);
      FieldsOfWord(oid, o.typ + " " + Decimal(|o.data|));
      FieldsOfWord(o.typ, Decimal(|o.data|));
      FieldsOfWord(Decimal(|o.data|), "");
    } else {
      FieldsOfWord(oid, "missing");
      FieldsOfWord("missing", "");
    }
  }

  lemma HeaderHasNoNewline(objects: Objects, oid: string)
    requires Sound(objects) && Word(oid)
    ensures '\n' !in Header(objects, oid)
  {
    if oid in objects { DecimalIsWord(|objects[oid].data|); }
  }

  /** bufio.Reader.ReadString('\n'): the line, or nothing if the stream ends first. */
  function LineEnd(s: string): (i: nat)
    ensures i <= |s| && '\n' !in s[..i] && (i < |s| ==> s[i] == '\n')
  {
    if s == "" || s[0] == '\n' then 0
    else
      var i := LineEnd(s[1..]);
      assert s[..i + 1] == [s[0]] + s[1..][..i];
      i + 1
  }

  lemma {:induction false} LineEndAt(line: string, rest: string)
    requires '\n' !in line
    ensures LineEnd(line + "\n" + rest) == |line|
  {
    var s := line + "\n" + rest;
    if line != "" {
      assert s[1..] == line[1..] + "\n" + rest;
      LineEndAt(line[1..], rest);
    }
  }

  /** What may go wrong outside the stream: pipes, disk, or the caller's context. */
  datatype Fault = NoFault | WriteFault | ReadFault | TempFileFault | RenameFault | CancelFault

  class BatchCatFile {
    const objects: Objects
    var unread: string
    var alive: bool

    constructor (objects: Objects)
      ensures this.objects == objects && unread == "" && alive
    {
      this.objects := objects;
      unread, alive := "", true;
    }

    /** Write the request line; the answer becomes readable. */
    method Request(oid: string, fault: Fault) returns (ok: bool)
      modifies this`unread
      ensures ok <==> !fault.WriteFault?
      ensures unread == if ok then old(unread) + Response(objects, oid) else old(unread)
    {
      if fault.WriteFault? { return false; }
      unread := unread + Response(objects, oid);
      ok := true;
    }

    /** readObjectSize */
    method ReadObjectSize(oid: string, fault: Fault) returns (r: Result<int>)
      modifies this`unread
      ensures fault.ReadFault? ==> r.Err?
      ensures r.Err? ==> !r.error.Cancelled? && !r.error.TooLarge? && !r.error.BadLimit?
      ensures !fault.ReadFault? && LineEnd(old(unread)) < |old(unread)| ==>
                r == ParseHeader(old(unread)[..LineEnd(old(unread))], oid)
                    && unread == old(unread)[LineEnd(old(unread)) + 1..]
      ensures LineEnd(old(unread)) == |old(unread)| ==> r.Err?
    {
      if fault.ReadFault? { return Err(ReadFailed); }
      var end := LineEnd(unread);
      if end == |unread| {
        unread := "";
        return Err(ReadFailed);
      }
      r := ParseHeader(unread[..end], oid);
      unread := unread[end + 1..];
    }

    /** The content and the trailing newline git appends. */
    method ReadContent(size: int) returns (r: Result<string>)
      modifies this`unread
      ensures r.Ok? <==> 0 <= size < |old(unread)| && old(unread)[size] == '\n'
      ensures r.Err? ==> !r.error.Cancelled? && !r.error.TooLarge? && !r.error.BadLimit?
      ensures r.Ok? ==> r.value == old(unread)[..size] && unread == old(unread)[size + 1..]
    {
      if size < 0 || |unread| <= size {
        unread := "";
        return Err(ReadFailed);
      }
      var data, lf := unread[..size], unread[size];
      unread := unread[size + 1..];
      if lf != '\n' { return Err(Desynchronized); }
      r := Ok(data);
    }

    /** Request an object and read how large it is; from a boundary, exactly the content is left unread. */
    method Ask(oid: string, fault: Fault) returns (size: Result<int>)
      requires Sound(objects) && Word(oid)
      modifies this`unread
      ensures size.Err? ==> !size.error.Cancelled? && !size.error.TooLarge? && !size.error.BadLimit?
      ensures old(unread) == "" && size.Ok? ==>
                IsBlob(objects, oid) && size.value == |objects[oid].data| && unread == objects[oid].data + "\n"
      ensures fault.WriteFault? || fault.ReadFault? ==> size.Err?
      ensures old(unread) == "" && !fault.WriteFault? && !fault.ReadFault? ==> (size.Ok? <==> IsBlob(objects, oid))
    {
      ghost var boundary := unread == "";
      ResponseShape(objects, oid);
      var ok := Request(oid, fault);
      if !ok { return Err(WriteFailed); }
      assert boundary ==> unread == Response(objects, oid);
      size := ReadObjectSize(oid, fault);
    }

    /**
     * fetchToFile.  From a boundary, success means the requested blob and a boundary again;
     * nothing else is claimed of the stream after a failure.
     */
    method FetchToFile(oid: string, fault: Fault) returns (r: Result<string>)
      requires Sound(objects) && Word(oid)
      modifies this
      ensures old(unread) == "" && r.Ok? ==> IsBlob(objects, oid) && r.value == objects[oid].data && unread == ""
      ensures old(unread) == "" && fault.NoFault? ==> (r.Ok? <==> IsBlob(objects, oid))
      ensures r.Err? && r.error.Cancelled? <==> fault.CancelFault?
      ensures fault.NoFault? || r.Err?
      ensures r.Ok? ==> alive == old(alive)
    {
      if fault.CancelFault? {
        unread, alive := *, false;  // the kill may hit the stream anywhere
        return Err(Cancelled);
      }
      var size := Ask(oid, fault);
      if size.Err? { return Err(size.error); }
      if fault.TempFileFault? {
        var drained := ReadContent(size.value);
        return Err(DiskFailed);
      }
      r := ReadContent(size.value);
      if r.Ok? && fault.RenameFault? { r := Err(DiskFailed); }
    }

    /** readBlob: an oversized blob is refused with its content still unread. */
    method ReadBlob(oid: string, maxBytes: nat, fault: Fault) returns (r: Result<string>)
      requires Sound(objects) && Word(oid)
      modifies this
      ensures old(unread) == "" && r.Ok? ==>
                IsBlob(objects, oid) && r.value == objects[oid].data && |r.value| <= maxBytes && unread == ""
      ensures old(unread) == "" && fault.NoFault? && IsBlob(objects, oid) &&
              |objects[oid].data| <= MAX_READ_BLOB_BYTES ==>
                (r == Err(TooLarge) <==> |objects[oid].data| > maxBytes) && (r.Ok? <==> |objects[oid].data| <= maxBytes)
      ensures old(unread) == "" && r == Err(TooLarge) ==> Exceeds(objects, oid, maxBytes) && unread != ""
      ensures r != Err(BadLimit)
      ensures r.Ok? ==> alive == old(alive)
    {
      if fault.CancelFault? {
        unread, alive := *, false;
        return Err(Cancelled);
      }
      var size := Ask(oid, fault);
      if size.Err? { return Err(size.error); }
      if size.value < 0 { return Err(BadHeader); }
      if size.value > maxBytes || size.value > MAX_READ_BLOB_BYTES { return Err(TooLarge); }
      r := ReadContent(size.value);
    }
  }

  const MAX_READ_BLOB_BYTES: int := 0x7FFF_FFFF

  predicate Exceeds(objects: Objects, oid: string, limit: int) {
    IsBlob(objects, oid) && (|objects[oid].data| > limit || |objects[oid].data| > MAX_READ_BLOB_BYTES)
  }

  /** Where the parts of an answer are. */
  lemma ResponseShape(objects: Objects, oid: string)
    requires Sound(objects) && Word(oid)
    ensures var s := Response(objects, oid);
            && LineEnd(s) == |Header(objects, oid)| < |s|
            && s[..LineEnd(s)] == Header(objects, oid)
            && s[LineEnd(s) + 1..] == (if oid in objects then objects[oid].data + "\n" else "")
            && ParseHeader(s[..LineEnd(s)], oid) ==
                 if IsBlob(objects, oid) then Ok(|objects[oid].data|)
                 else if oid in objects && objects[oid].typ != "missing" then Err(BadHeader) else Err(Missing)
  {
    HeaderHasNoNewline(objects, oid);
    HeaderParses(objects, oid);
    LineEndAt(Header(objects, oid), if oid in objects then objects[oid].data + "\n" else "");
    var s, h := Response(objects, oid), Header(objects, oid);
    assert s == h + ("\n" + if oid in objects then objects[oid].data + "\n" else "");
  }

  /** The free list over many requests; acquire takes a free process or starts one. */
  class ReusedProcesses {
    const objects: Objects
    var free: seq<BatchCatFile>

    /** Every free process sits at a response boundary. */
    ghost predicate Valid()
      reads this, free
    {
      && Sound(objects)
      && (forall i, j :: 0 <= i < j < |free| ==> free[i] != free[j])
      && (forall i :: 0 <= i < |free| ==> free[i].objects == objects && free[i].unread == "")
    }

    constructor (objects: Objects)
      requires Sound(objects)
      ensures Valid() && this.objects == objects && free == []
    {
      this.objects, free := objects, [];
    }

    /** The process that was used is back on the list, alive; some before it may have turned out dead. */
    ghost predicate GivesBack(before: seq<BatchCatFile>, after: seq<BatchCatFile>)
      reads after
    {
      after != [] && after[..|after| - 1] <= before && after[|after| - 1].alive
    }

    method Acquire() returns (b: BatchCatFile)
      requires Valid()
      modifies this
      ensures Valid() && b !in free && b.objects == objects && b.unread == ""
      ensures (b in old(free) || fresh(b)) && b.alive
      ensures free <= old(free) && (old(free) != [] ==> |free| < |old(free)|)
    {
      while |free| > 0
        invariant Valid() && free <= old(free)
      {
        b := free[|free| - 1];
        free := free[..|free| - 1];
        if b.alive { return; }
      }
      b := new BatchCatFile(objects);
    }

    method Release(b: BatchCatFile)
      requires Valid() && b !in free && b.objects == objects && b.unread == ""
      modifies this
      ensures Valid() && free == if b.alive then old(free) + [b] else old(free)
    {
      if b.alive { free := free + [b]; }
    }

    /** BlobToCache: one retry on a new process; a process that failed never returns to the list. */
    method BlobToCache(oid: string, first: Fault, second: Fault) returns (r: Result<string>)
      requires Valid() && Word(oid)
      modifies this, free
      ensures Valid() && (forall x :: x in free ==> x in old(free) || fresh(x))
      ensures r.Ok? ==> IsBlob(objects, oid) && r.value == objects[oid].data
      ensures if r.Ok? then GivesBack(old(free), free) else free <= old(free)
      ensures first.NoFault? || second.NoFault? || r.Err?
      ensures first.NoFault? || (second.NoFault? && !first.CancelFault?) ==> (r.Ok? <==> IsBlob(objects, oid))
    {
      var b := Acquire();
      r := b.FetchToFile(oid, first);
      if r.Err? {
        if r.error.Cancelled? { return; }
        b := Acquire();
        r := b.FetchToFile(oid, second);
        if r.Err? { return; }
      }
      Release(b);
    }

    /**
     * Store.ReadBlob: an oversized blob costs its process, which still holds unread content; so
     * does any failure.
     */
    method ReadBlob(oid: string, maxBytes: int, first: Fault, second: Fault) returns (r: Result<string>)
      requires Valid() && Word(oid)
      modifies this, free
      ensures Valid() && (forall x :: x in free ==> x in old(free) || fresh(x))
      ensures r.Ok? ==> IsBlob(objects, oid) && r.value == objects[oid].data && |r.value| <= maxBytes
      ensures r.Ok? ==> GivesBack(old(free), free)
      ensures r == Err(BadLimit) <==> maxBytes < 0
      ensures r == Err(TooLarge) ==> Exceeds(objects, oid, maxBytes)
      ensures 0 <= maxBytes && (first.NoFault? || second.NoFault?) && IsBlob(objects, oid) &&
              |objects[oid].data| <= MAX_READ_BLOB_BYTES ==>
                (r.Ok? <==> |objects[oid].data| <= maxBytes) && (r == Err(TooLarge) <==> |objects[oid].data| > maxBytes)
      ensures r.Err? && maxBytes >= 0 ==> free <= old(free) && (old(free) != [] ==> |free| < |old(free)|)
      ensures maxBytes < 0 ==> free == old(free)
    {
      if maxBytes < 0 { return Err(BadLimit); }
      var b := Acquire();
      r := b.ReadBlob(oid, maxBytes, first);
      if r.Err? {
        if r.error.TooLarge? { return; }
        b := Acquire();
        r := b.ReadBlob(oid, maxBytes, second);
        if r.Err? { return; }
      }
      Release(b);
    }
  }

  datatype Want =
    | Fetch(oid: string, first: Fault, second: Fault)
    | Read(oid: string, maxBytes: int, first: Fault, second: Fault)

  /** Over any sequence of requests every success is the object asked for. */
  method Serve(objects: Objects, wants: seq<Want>) returns (results: seq<Result<string>>)
    requires Sound(objects) && forall i :: 0 <= i < |wants| ==> Word(wants[i].oid)
    ensures |results| == |wants|
    ensures forall i :: 0 <= i < |wants| && results[i].Ok? ==>
              IsBlob(objects, wants[i].oid) && results[i].value == objects[wants[i].oid].data
    ensures forall i :: 0 <= i < |wants| && wants[i].Fetch? && wants[i].first.NoFault? ==>
              (results[i].Ok? <==> IsBlob(objects, wants[i].oid))
  {
    var pool := new ReusedProcesses(objects);
    results := [];
    for i := 0 to |wants|
      invariant pool.Valid() && fresh(pool) && (forall x :: x in pool.free ==> fresh(x)) && |results| == i
      invariant forall j :: 0 <= j < i && results[j].Ok? ==>
                  IsBlob(objects, wants[j].oid) && results[j].value == objects[wants[j].oid].data
      invariant forall j :: 0 <= j < i && wants[j].Fetch? && wants[j].first.NoFault? ==>
                  (results[j].Ok? <==> IsBlob(objects, wants[j].oid))
    {
      var r;
      forall k | 0 <= k < |pool.free| ensures fresh(pool.free[k]) { assert pool.free[k] in pool.free; }
      match wants[i] {
        case Fetch(oid, first, second) => r := pool.BlobToCache(oid, first, second);
        case Read(oid, maxBytes, first, second) => r := pool.ReadBlob(oid, maxBytes, first, second);
      }
      assert forall x :: x in pool.free ==> fresh(x);
      results := results + [r];
    }
  }
}
