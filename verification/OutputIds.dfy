/**
 The occurrence string an output event's name-based UUID is made from.  It can be taken
 apart again into what it says, even when the error code holds colons, so under an
 injective name-based id two output events share an id exactly when they are the same
 occurrence.
 */
module OutputIds {
  import opened Options
  import opened Domain
  import opened Decimals

  const PREFIX := "urn:fsamp:event:"

  function TypeName(id: OutputId): string {
    if id.Completion? then "ANALYSIS_COMPLETED" else "PROCESSING_FAILED"
  }

  function Flag(b: bool): string {
    if b then "true" else "false"
  }

  /** What tells the failures of one event apart; a completion has no discriminator. */
  function Discriminator(id: OutputId): string
    requires id.Failure?
  {
    "claim:" + (Decimal(id.version) + (":" + (id.code + (":" + Flag(id.retryable)))))
  }

  function Occurrence(id: OutputId): string {
    PREFIX + (id.input + (":" + (TypeName(id) + if id.Failure? then ":" + Discriminator(id) else "")))
  }

  predicate NoColon(s: string) {
    ':' !in s
  }

  /** Where the first colon is, or the length. */
  function Colon(s: string): (i: nat)
    ensures i <= |s| && (i < |s| ==> s[i] == ':')
  {
    if s == "" || s[0] == ':' then 0 else 1 + Colon(s[1..])
  }

  /** Up to the first colon is the part before it. */
  lemma {:induction false} SplitAtColon(a: string, rest: string)
    requires NoColon(a)
    ensures var s := a + (":" + rest);
            Colon(s) == |a| && s[..|a|] == a && s[|a| + 1..] == rest
  {
    var s := a + (":" + rest);
    if a == "" {
      assert s == ":" + rest;
    } else {
      SplitAtColon(a[1..], rest);
      assert s[1..] == a[1..] + (":" + rest);
      assert a[0] in a;
    }
  }

  /** The occurrence strings, written out; a version is written in decimal digits. */
  lemma OccurrenceText(e: EventId, v: nat, code: string, retryable: bool)
    ensures Occurrence(Completion(e)) == "urn:fsamp:event:" + (e + ":ANALYSIS_COMPLETED")
    ensures Occurrence(Failure(e, v, code, retryable)) ==
            "urn:fsamp:event:" + (e + (":PROCESSING_FAILED:claim:"
                                       + (Decimal(v) + (":" + (code + if retryable then ":true" else ":false")))))
    ensures Number(Decimal(v)) == v && (Decimal(v)[0] == '0' <==> v == 0)
  {
    NumberOfDecimal(v);
    NoLeadingZero(v);
    assert ":" + ("ANALYSIS_COMPLETED" + "") == ":ANALYSIS_COMPLETED";
    assert ":" + Flag(retryable) == if retryable then ":true" else ":false";
    FailedClaimText(Decimal(v) + (":" + (code + (":" + Flag(retryable)))));
  }

  lemma FailedClaimText(rest: string)
    ensures ":" + ("PROCESSING_FAILED" + (":" + ("claim:" + rest))) == ":PROCESSING_FAILED:claim:" + rest
  {
    FailureText(rest);
    assert ":" + "PROCESSING_FAILED:claim:" == ":PROCESSING_FAILED:claim:";
    assert ":" + ("PROCESSING_FAILED:claim:" + rest) == (":" + "PROCESSING_FAILED:claim:") + rest;
  }

  // ------------------------------------------------------------------ decoding

  /** The code and the flag: the flag is what follows the last colon. */
  function DecodeTail(s: string): Option<(string, bool)> {
    if |s| >= 5 && s[|s| - 5..] == ":true" then Some((s[..|s| - 5], true))
    else if |s| >= 6 && s[|s| - 6..] == ":false" then Some((s[..|s| - 6], false))
    else None
  }

  lemma Ends(s: string, a: string, b: string)
    requires s == a + b
    ensures s[|s| - |b|..] == b && s[..|s| - |b|] == a
  {
  }

  lemma TailRoundTrip(code: string, retryable: bool)
    ensures DecodeTail(code + (":" + Flag(retryable))) == Some((code, retryable))
  {
    var s := code + (":" + Flag(retryable));
    if retryable {
      Ends(s, code, ":true");
    } else {
      Ends(s, code, ":false");
      Ends(s, code + ":", "false");
      assert "false"[0] == 'f' && ":true"[0] == ':';
    }
  }

  function Decode(s: string): Option<OutputId> {
    if |s| < |PREFIX| || s[..|PREFIX|] != PREFIX then None
    else
      var body := s[|PREFIX|..];
      var i := Colon(body);
      if i == |body| then None
      else DecodeKind(body[..i], body[i + 1..])
  }

  const FAILED_CLAIM := "PROCESSING_FAILED:claim:"

  function DecodeKind(input: EventId, s: string): Option<OutputId> {
    if s == "ANALYSIS_COMPLETED" then Some(Completion(input))
    else if |s| < |FAILED_CLAIM| || s[..|FAILED_CLAIM|] != FAILED_CLAIM then None
    else
      var body := s[|FAILED_CLAIM|..];
      var i := Colon(body);
      if i == |body| then None
      else
        var tail := DecodeTail(body[i + 1..]);
        if tail.None? then None else Some(Failure(input, Number(body[..i]), tail.value.0, tail.value.1))
  }

  lemma DecimalHasNoColon(n: nat)
    ensures NoColon(Decimal(n))
  {
    assert ':' !in DIGITS;
  }

  lemma KindRoundTrip(id: OutputId)
    ensures DecodeKind(id.input, TypeName(id) + if id.Failure? then ":" + Discriminator(id) else "") == Some(id)
  {
    if id.Completion? {
      assert TypeName(id) + "" == "ANALYSIS_COMPLETED";
    } else {
      var tail := id.code + (":" + Flag(id.retryable));
      var body := Decimal(id.version) + (":" + tail);
      var s := TypeName(id) + (":" + Discriminator(id));
      FailureText(body);
      assert s == FAILED_CLAIM + body;
      assert s[..|FAILED_CLAIM|] == FAILED_CLAIM && s[|FAILED_CLAIM|..] == body;
      assert s[0] == 'P' && "ANALYSIS_COMPLETED"[0] == 'A';
      DecimalHasNoColon(id.version);
      SplitAtColon(Decimal(id.version), tail);
      NumberOfDecimal(id.version);
      TailRoundTrip(id.code, id.retryable);
    }
  }

  lemma FailureText(body: string)
    ensures "PROCESSING_FAILED" + (":" + ("claim:" + body)) == FAILED_CLAIM + body
  {
    assert "PROCESSING_FAILED" + ":" + "claim:" == FAILED_CLAIM;
  }

  /** Every occurrence can be read back: event, kind, version, code and flag. */
  lemma OccurrenceRoundTrip(id: OutputId)
    requires NoColon(id.input)
    ensures Decode(Occurrence(id)) == Some(id)
  {
    var rest := TypeName(id) + if id.Failure? then ":" + Discriminator(id) else "";
    var body := id.input + (":" + rest);
    assert Occurrence(id)[..|PREFIX|] == PREFIX && Occurrence(id)[|PREFIX|..] == body;
    SplitAtColon(id.input, rest);
    KindRoundTrip(id);
  }

  /** Two output events of well-formed input events are named alike exactly when they are
      the same occurrence. */
  lemma OccurrenceInjective(a: OutputId, b: OutputId)
    requires NoColon(a.input) && NoColon(b.input)
    ensures Occurrence(a) == Occurrence(b) <==> a == b
  {
    OccurrenceRoundTrip(a);
    OccurrenceRoundTrip(b);
  }

  /** The name-based id, given the name: injective by assumption. */
  ghost predicate NameBased(uuid: string -> string) {
    forall s, t :: uuid(s) == uuid(t) ==> s == t
  }

  /** Repeated attempts under one lease that end alike share an outbox key; attempts under
      different leases, and completions and failures, never do. */
  lemma OutboxKeys(uuid: string -> string, e: EventId, v: nat, w: nat, c: string, d: string, p: bool, q: bool)
    requires NameBased(uuid) && NoColon(e)
    ensures uuid(Occurrence(Failure(e, v, c, p))) == uuid(Occurrence(Failure(e, w, d, q)))
            <==> v == w && c == d && p == q
    ensures uuid(Occurrence(Completion(e))) != uuid(Occurrence(Failure(e, v, c, p)))
  {
    OccurrenceInjective(Failure(e, v, c, p), Failure(e, w, d, q));
    OccurrenceInjective(Completion(e), Failure(e, v, c, p));
  }
}
