/**
 * Scanning Git's error output as it arrives in chunks: the bounded buffer must classify the
 * whole output although it only looks at one chunk and the end of the previous ones.
 */
module ErrorScan {
  const OVERLAP: nat := 128

  const PERMANENT: set<string> := {
    "no space left on device",
    "disk quota exceeded",
    "permission denied",
    "read-only file system"
  }

  const HTTP_CODES: set<string> := {"408", "500", "502", "503", "504", "522", "524"}

  /** How Git and curl report a failing HTTP status. */
  function HttpSymptoms(code: string): set<string> {
    {"http " + code, "http/1.0 " + code, "http/1.1 " + code, "http/2 " + code, "returned error: " + code}
  }

  const CURL_AND_REMOTE: set<string> := {
    "curl 18 ",
    "curl 55 ",
    "curl 56 ",
    "curl 92 ",
    "unexpected disconnect",
    "remote end hung up unexpectedly",
    "remote hung up",
    "connection reset"
  }

  const NETWORK: set<string> := {
    "connection timed out",
    "could not resolve host",
    "couldn't connect to server",
    "failed to connect to",
    "operation timed out",
    "timeout was reached",
    "empty reply from server",
    "transfer closed with"
  }

  const TRANSFER: set<string> := {
    "send failure: broken pipe",
    "tls connection was non-properly terminated",
    "was not closed cleanly: cancel",
    "reset by server",
    "bytes of body are still expected",
    "bytes of length header were received",
    "early eof"
  }

  const TRANSIENT: set<string> :=
    (set code, symptom | code in HTTP_CODES && symptom in HttpSymptoms(code) :: symptom) +
    CURL_AND_REMOTE + NETWORK + TRANSFER

  function LowerChar(c: char): char {
    if 'A' <= c <= 'Z' then c + 32 as char else c
  }

  /** strings.ToLower on ASCII. */
  function Lower(s: string): (r: string)
    ensures |r| == |s| && forall i :: 0 <= i < |s| ==> r[i] == LowerChar(s[i])
  {
    seq(|s|, i requires 0 <= i < |s| => LowerChar(s[i]))
  }

  lemma LowerConcat(a: string, b: string)
    ensures Lower(a + b) == Lower(a) + Lower(b)
    ensures Lower(Lower(a) + b) == Lower(a + b)
  {
  }

  predicate OccursAt(s: string, sub: string, i: nat) {
    i + |sub| <= |s| && s[i..i + |sub|] == sub
  }

  /** strings.Contains */
  predicate Contains(s: string, sub: string) {
    exists i: nat :: i <= |s| && OccursAt(s, sub, i)
  }

  /** containsGitSymptom */
  predicate ContainsAny(s: string, symptoms: set<string>) {
    exists sub :: sub in symptoms && Contains(s, sub)
  }

  function Tail(s: string): string {
    if |s| > OVERLAP then s[|s| - OVERLAP..] else s
  }

  lemma TailConcat(a: string, b: string)
    ensures Tail(Tail(a) + b) == Tail(a + b)
  {
  }

  lemma OccursShifted(pre: string, s: string, sub: string, i: nat)
    ensures OccursAt(s, sub, i) <==> OccursAt(pre + s, sub, |pre| + i)
  {
  }

  lemma OccursInPrefix(s: string, post: string, sub: string, i: nat)
    requires i + |sub| <= |s|
    ensures OccursAt(s, sub, i) <==> OccursAt(s + post, sub, i)
  {
  }

  /**
   * A symptom of at most one character more than the overlap occurs in the whole exactly when
   * it occurs in what was seen before or in the kept tail followed by the new chunk.
   */
  lemma ContainsAcrossChunks(seen: string, chunk: string, sub: string)
    requires |sub| <= OVERLAP + 1
    ensures Contains(seen + chunk, sub) <==> Contains(seen, sub) || Contains(Tail(seen) + chunk, sub)
  {
    var cut := |seen| - |Tail(seen)|;
    var whole := seen + chunk;
    assert whole == seen[..cut] + (Tail(seen) + chunk);
    if Contains(whole, sub) {
      var i: nat :| i <= |whole| && OccursAt(whole, sub, i);
      if i + |sub| <= |seen| {
        OccursInPrefix(seen, chunk, sub, i);
      } else {
        OccursShifted(seen[..cut], Tail(seen) + chunk, sub, i - cut);
      }
    }
    if i: nat :| i <= |seen| && OccursAt(seen, sub, i) { OccursInPrefix(seen, chunk, sub, i); }
    if i: nat :| i <= |Tail(seen) + chunk| && OccursAt(Tail(seen) + chunk, sub, i) {
      OccursShifted(seen[..cut], Tail(seen) + chunk, sub, i);
    }
  }

  ghost predicate Fit(symptoms: set<string>) {
    forall sub :: sub in symptoms ==> 1 <= |sub| <= OVERLAP + 1
  }

  lemma ContainsAnyAcrossChunks(seen: string, chunk: string, symptoms: set<string>)
    requires Fit(symptoms)
    ensures ContainsAny(seen + chunk, symptoms) <==>
        ContainsAny(seen, symptoms) || ContainsAny(Tail(seen) + chunk, symptoms)
  {
    forall sub | sub in symptoms
      ensures Contains(seen + chunk, sub) <==> Contains(seen, sub) || Contains(Tail(seen) + chunk, sub)
    {
      ContainsAcrossChunks(seen, chunk, sub);
    }
  }

  lemma HttpSymptomsFit(code: string)
    requires code in HTTP_CODES
    ensures Fit(HttpSymptoms(code))
  {
  }

  lemma RemoteSymptomsFit()
    ensures Fit(CURL_AND_REMOTE)
  {
  }

  lemma NetworkSymptomsFit()
    ensures Fit(NETWORK)
  {
  }

  lemma TransferSymptomsFit()
    ensures Fit(TRANSFER)
  {
  }

  lemma PermanentSymptomsFit()
    ensures Fit(PERMANENT)
  {
  }

  /** Every symptom the program looks for fits in the overlap plus one. */
  lemma SymptomsFit()
    ensures Fit(PERMANENT) && Fit(TRANSIENT)
  {
    PermanentSymptomsFit();
    RemoteSymptomsFit();
    NetworkSymptomsFit();
    TransferSymptomsFit();
    forall sub | sub in TRANSIENT && sub !in CURL_AND_REMOTE + NETWORK + TRANSFER ensures 1 <= |sub| <= OVERLAP + 1 {
      var code :| code in HTTP_CODES && sub in HttpSymptoms(code);
      HttpSymptomsFit(code);
    }
  }

  /** isTransientGitMessage: the reference scan of a whole message. */
  predicate IsTransientMessage(message: string) {
    !ContainsAny(Lower(message), PERMANENT) && ContainsAny(Lower(message), TRANSIENT)
  }

  /** Scanning the kept tail and the new chunk adds to what was seen what the whole holds. */
  method ScanFor(ghost total: string, ghost p: string, scan: string, symptoms: set<string>, saw: bool)
      returns (now: bool)
    requires Fit(symptoms) && scan == Lower(Tail(Lower(total)) + p) && saw == ContainsAny(Lower(total), symptoms)
    ensures now == ContainsAny(Lower(total + p), symptoms)
  {
    ScanIsTailAndChunk(total, p, scan);
    ContainsAnyAcrossChunks(Lower(total), Lower(p), symptoms);
    now := saw || ContainsAny(scan, symptoms);
  }

  lemma ScanIsTailAndChunk(total: string, p: string, scan: string)
    requires scan == Lower(Tail(Lower(total)) + p)
    ensures scan == Tail(Lower(total)) + Lower(p) && Lower(total + p) == Lower(total) + Lower(p)
    ensures Tail(scan) == Tail(Lower(total + p))
  {
    LowerConcat(total, p);
    TailConcat(Lower(total), Lower(p));
  }

  function Prefix(s: string, n: nat): string {
    if |s| <= n then s else s[..n]
  }

  class BoundedGitError {
    const limit: nat
    const permanent: set<string>
    const transient: set<string>
    var buf: string
    var truncated: bool
    var scanTail: string
    var sawPermanent: bool
    var sawTransient: bool
    ghost var total: string  // everything written so far

    /** The flags are those of the whole output, the tail is its end. */
    ghost predicate Scanned(whole: string)
      reads this
    {
      && scanTail == Tail(Lower(whole))
      && sawPermanent == ContainsAny(Lower(whole), permanent)
      && sawTransient == ContainsAny(Lower(whole), transient)
    }

    /** The buffer is the prefix of the limit length. */
    ghost predicate Kept(whole: string)
      reads this
    {
      buf == Prefix(whole, limit) && truncated == (|whole| > limit)
    }

    ghost predicate Valid()
      reads this
    {
      Fit(permanent) && Fit(transient) && Scanned(total) && Kept(total)
    }

    constructor (limit: nat, permanent: set<string>, transient: set<string>)
      requires Fit(permanent) && Fit(transient)
      ensures Valid() && total == "" && this.limit == limit && this.permanent == permanent
          && this.transient == transient
    {
      this.limit, this.permanent, this.transient := limit, permanent, transient;
      buf, truncated, scanTail, sawPermanent, sawTransient := "", false, "", false, false;
      total := "";
      NothingInEmpty(permanent);
      NothingInEmpty(transient);
    }

    method Write(p: string) returns (n: nat)
      requires Valid()
      modifies this
      ensures Valid() && total == old(total) + p && n == |p|
    {
      n := |p|;
      Scan(p);
      Keep(p);
      total := total + p;
    }

    /** The flags and the tail after one more chunk. */
    method Scan(p: string)
      requires Fit(permanent) && Fit(transient) && Scanned(total)
      modifies this`scanTail, this`sawPermanent, this`sawTransient
      ensures Scanned(total + p)
    {
      var scan := Lower(scanTail + p);
      ScanIsTailAndChunk(total, p, scan);
      var permanentNow := ScanFor(total, p, scan, permanent, sawPermanent);
      var transientNow := ScanFor(total, p, scan, transient, sawTransient);
      var tail := if |scan| > OVERLAP then scan[|scan| - OVERLAP..] else scan;
      assert tail == Tail(scan);
      sawPermanent, sawTransient, scanTail := permanentNow, transientNow, tail;
    }

    /** The buffer takes what still fits. */
    method Keep(p: string)
      requires Kept(total)
      modifies this`buf, this`truncated
      ensures Kept(total + p)
    {
      var remaining := if limit > |buf| then limit - |buf| else 0;
      var kept := p;
      if |p| > remaining {
        truncated := true;
        kept := p[..remaining];
      }
      buf := buf + kept;
    }

    method Retryable() returns (r: bool)
      requires Valid()
      ensures r == (!ContainsAny(Lower(total), permanent) && ContainsAny(Lower(total), transient))
    {
      r := !sawPermanent && sawTransient;
    }
  }

  lemma NothingInEmpty(symptoms: set<string>)
    requires Fit(symptoms)
    ensures !ContainsAny(Lower(""), symptoms)
  {
  }

  function Concat(chunks: seq<string>): string
    decreases |chunks|
  {
    if chunks == [] then "" else Concat(chunks[..|chunks| - 1]) + chunks[|chunks| - 1]
  }

  /** However the output is split into writes, the verdict is that of the whole. */
  method ClassifyBy(chunks: seq<string>, limit: nat, permanent: set<string>, transient: set<string>)
    returns (kept: string, truncated: bool, retryable: bool)
    requires Fit(permanent) && Fit(transient)
    ensures var whole := Concat(chunks);
            && retryable == (!ContainsAny(Lower(whole), permanent) && ContainsAny(Lower(whole), transient))
            && truncated == (|whole| > limit) && kept == Prefix(whole, limit)
  {
    var b := new BoundedGitError(limit, permanent, transient);
    for i := 0 to |chunks|
      invariant b.Valid() && fresh(b) && b.total == Concat(chunks[..i])
    {
      assert chunks[..i + 1][..i] == chunks[..i];
      var _ := b.Write(chunks[i]);
    }
    assert chunks[..|chunks|] == chunks;
    retryable := b.Retryable();
    kept, truncated := b.buf, b.truncated;
  }

  /** With the program's symptoms it is that of isTransientGitMessage. */
  method Classify(chunks: seq<string>, limit: nat) returns (kept: string, truncated: bool, retryable: bool)
    ensures retryable == IsTransientMessage(Concat(chunks))
    ensures truncated == (|Concat(chunks)| > limit) && kept == Prefix(Concat(chunks), limit)
  {
    SymptomsFit();
    kept, truncated, retryable := ClassifyBy(chunks, limit, PERMANENT, TRANSIENT);
  }
}
