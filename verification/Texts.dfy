/** What the texts of a planner say: numbers, digests, the payload of a dispatch, an entry of the history. */
module Texts {
  import opened Integers
  import opened Domain
  import opened Evidence
  import opened Selection
  import opened Wording

  predicate DigitText(t: text) { t != [] && forall i :: 0 <= i < |t| ==> 48 <= t[i] <= 57 }

  function DigitsValue(t: text): int {
    if t == [] then 0 else 10 * DigitsValue(t[..|t| - 1]) + (t[|t| - 1] as int - 48)
  }

  lemma {:induction false} DecimalReadsBack(n: nat, k: nat)
    requires 0 < k && n < Power10(k)
    ensures DigitText(Decimal(n, k)) && DigitsValue(Decimal(n, k)) == n
    ensures n > 0 ==> Decimal(n, k)[0] != 48
    decreases k
  {
    if n < 10 {
      assert [48 + n][..0] == [];
    } else {
      Digits(n, k);
      DecimalReadsBack(n / 10, k - 1);
      var t := Decimal(n / 10, k - 1) + [48 + n % 10];
      assert t[..|t| - 1] == Decimal(n / 10, k - 1) && Decimal(n, k) == t;
    }
  }

  /** A number is written in decimal digits, without leading zeros. */
  lemma NumberReadsBack(n: u64)
    ensures DigitText(Number(n)) && DigitsValue(Number(n)) == n && (n > 0 ==> Number(n)[0] != 48)
  {
    TwentyDigits();
    DecimalReadsBack(n, 20);
  }

  function HexValue(b: byte): int { if 48 <= b <= 57 then b - 48 else if 97 <= b <= 102 then b - 87 else -1 }

  /** A digest is written with two lower-case hexadecimal digits a byte, the upper half first. */
  lemma {:induction false} HexReadsBack(s: seq<byte>, i: nat)
    requires i < |s|
    ensures HexValue(Hex(s)[2 * i]) == s[i] / 16 && HexValue(Hex(s)[2 * i + 1]) == s[i] % 16
    decreases |s|
  {
    if i > 0 {
      HexReadsBack(s[1..], i - 1);
    }
  }

  // ---- Texts with fields ----------------------------------------------------------------------

  /** The parts of a text between its separators. */
  function Split(t: text, sep: byte): (parts: seq<text>)
    ensures parts != []
  {
    if t == [] then [[]]
    else if t[0] == sep then [[]] + Split(t[1..], sep)
    else
      var parts := Split(t[1..], sep);
      [[t[0]] + parts[0]] + parts[1..]
  }

  lemma {:induction false} SplitConcat(p: text, q: text, sep: byte)
    ensures Split(p + [sep] + q, sep) == Split(p, sep) + Split(q, sep)
    decreases |p|
  {
    var t := p + [sep] + q;
    if p == [] {
      assert t[1..] == q;
    } else {
      assert t[0] == p[0] && t[1..] == p[1..] + [sep] + q;
      SplitConcat(p[1..], q, sep);
    }
  }

  lemma {:induction false} SplitWhole(t: text, sep: byte)
    requires sep !in t
    ensures Split(t, sep) == [t]
    decreases |t|
  {
    if t != [] {
      SplitWhole(t[1..], sep);
      assert t == [t[0]] + t[1..];
    }
  }

  /** One more field: a separator, a label, a value. */
  lemma FieldAdded(p: text, name: text, value: text, sep: byte)
    requires sep !in name && sep !in value
    ensures Split(p + ([sep] + name) + value, sep) == Split(p, sep) + [name + value]
  {
    hide Split;
    assert p + ([sep] + name) + value == p + [sep] + (name + value);
    SplitConcat(p, name + value, sep);
    SplitWhole(name + value, sep);
  }

  lemma NumberIsPlain(n: u64)
    ensures '|' as int !in Number(n) && ' ' as int !in Number(n)
  {
    NumberReadsBack(n);
    hide Number;
  }

  predicate Word(w: string) { forall i :: 0 <= i < |w| ==> 'A' <= w[i] <= '_' }

  lemma WordIsPlain(w: string)
    requires Word(w)
    ensures '|' as int !in Ascii(w) && ' ' as int !in Ascii(w)
  {
  }

  lemma StrategyIsWord(s: Strategy)
    ensures exists w :: Word(w) && StrategyName(s) == Ascii(w)
  {
    hide Ascii;
    assert Word("RESTORE") && Word("RESTART") && Word("MIGRATE") && Word("REHYDRATE") && Word("SHADOW_PROMOTE");
    assert Word("FAILOVER") && Word("RECOMPUTE") && Word("UNKNOWN");
    hide Word;
  }

  lemma OutcomeIsWord(o: PlanOutcome)
    ensures exists w :: Word(w) && OutcomeName(o) == Ascii(w)
  {
    hide Ascii;
    assert Word("PLAN_FOUND") && Word("NO_VALID_PLAN") && Word("NO_DEADLINE_FEASIBLE_PLAN") && Word("NO_CANDIDATES");
    hide Word;
  }

  lemma NamesArePlain(s: Strategy, o: PlanOutcome)
    ensures '|' as int !in StrategyName(s) && ' ' as int !in StrategyName(s) && ' ' as int !in OutcomeName(o)
  {
    StrategyIsWord(s);
    OutcomeIsWord(o);
    var v :| Word(v) && StrategyName(s) == Ascii(v);
    var w :| Word(w) && OutcomeName(o) == Ascii(w);
    WordIsPlain(v);
    WordIsPlain(w);
  }

  lemma PayloadLabels()
    ensures Ascii("|worker=") == ['|' as int] + Ascii("worker=") && '|' as int !in Ascii("worker=")
    ensures Ascii("|boot=") == ['|' as int] + Ascii("boot=") && '|' as int !in Ascii("boot=")
    ensures Ascii("|state=") == ['|' as int] + Ascii("state=") && '|' as int !in Ascii("state=")
    ensures Ascii("|state_gen=") == ['|' as int] + Ascii("state_gen=") && '|' as int !in Ascii("state_gen=")
  {
  }

  /** A payload names the strategy, and under their labels the target and the state it starts from. */
  lemma PayloadReads(c: Candidate)
    ensures Split(Payload(c), '|' as int) ==
              [StrategyName(c.strategy), Ascii("worker=") + Number(c.targetWorker), Ascii("boot=") + Number(c.targetBoot),
               Ascii("state=") + Number(c.stateSource), Ascii("state_gen=") + Number(c.stateGeneration)]
  {
    var sep := '|' as int;
    PayloadLabels();
    NamesArePlain(c.strategy, PlanFound);
    NumberIsPlain(c.targetWorker);
    NumberIsPlain(c.targetBoot);
    NumberIsPlain(c.stateSource);
    NumberIsPlain(c.stateGeneration);
    hide Split;
    hide Ascii;
    hide Number;
    hide StrategyName;
    var p0 := StrategyName(c.strategy);
    var p1 := p0 + Ascii("|worker=") + Number(c.targetWorker);
    var p2 := p1 + Ascii("|boot=") + Number(c.targetBoot);
    var p3 := p2 + Ascii("|state=") + Number(c.stateSource);
    SplitWhole(p0, sep);
    FieldAdded(p0, Ascii("worker="), Number(c.targetWorker), sep);
    FieldAdded(p1, Ascii("boot="), Number(c.targetBoot), sep);
    FieldAdded(p2, Ascii("state="), Number(c.stateSource), sep);
    FieldAdded(p3, Ascii("state_gen="), Number(c.stateGeneration), sep);
    assert Payload(c) == p3 + Ascii("|state_gen=") + Number(c.stateGeneration);
  }

  lemma HistoryLabels()
    ensures ' ' as int !in Ascii("req=")
    ensures Ascii(" workload=") == [' ' as int] + Ascii("workload=") && ' ' as int !in Ascii("workload=")
    ensures Ascii(" outcome=") == [' ' as int] + Ascii("outcome=") && ' ' as int !in Ascii("outcome=")
  {
  }

  lemma PlanLabels()
    ensures Ascii(" plan=") == [' ' as int] + Ascii("plan=") && ' ' as int !in Ascii("plan=")
    ensures Ascii(" strategy=") == [' ' as int] + Ascii("strategy=") && ' ' as int !in Ascii("strategy=")
    ensures Ascii(" candidate=") == [' ' as int] + Ascii("candidate=") && ' ' as int !in Ascii("candidate=")
    ensures Ascii(" digest=") == [' ' as int] + Ascii("digest=") && ' ' as int !in Ascii("digest=")
  {
  }

  /** What the history says of a request. */
  function RequestFields(q: Request, outcome: PlanOutcome): seq<text> {
    [Ascii("req=") + Number(q.requestId), Ascii("workload=") + Number(q.workload), Ascii("outcome=") + OutcomeName(outcome)]
  }

  lemma HistoryReads(q: Request, outcome: PlanOutcome)
    ensures Split(HistoryEntry(q, outcome), ' ' as int) == RequestFields(q, outcome)
  {
    var sep := ' ' as int;
    HistoryLabels();
    NamesArePlain(RESTART, outcome);
    NumberIsPlain(q.requestId);
    NumberIsPlain(q.workload);
    hide Split;
    hide Ascii;
    hide Number;
    hide OutcomeName;
    var p0 := Ascii("req=") + Number(q.requestId);
    var p1 := p0 + Ascii(" workload=") + Number(q.workload);
    SplitWhole(p0, sep);
    FieldAdded(p0, Ascii("workload="), Number(q.workload), sep);
    FieldAdded(p1, Ascii("outcome="), OutcomeName(outcome), sep);
    assert HistoryEntry(q, outcome) == p1 + Ascii(" outcome=") + OutcomeName(outcome);
  }

  /** With a plan, its id, strategy, candidate and digest follow. */
  lemma HistoryReadsPlan(q: Request, outcome: PlanOutcome, p: Plan)
    requires ' ' as int !in p.digest
    ensures Split(HistoryEntryWithPlan(q, outcome, p), ' ' as int) == RequestFields(q, outcome) +
              [Ascii("plan=") + Number(p.planId), Ascii("strategy=") + StrategyName(p.strategy),
               Ascii("candidate=") + Number(p.candidateId), Ascii("digest=") + p.digest]
  {
    var sep := ' ' as int;
    PlanLabels();
    HistoryReads(q, outcome);
    NamesArePlain(p.strategy, outcome);
    NumberIsPlain(p.planId);
    NumberIsPlain(p.candidateId);
    hide Split;
    hide Ascii;
    hide Number;
    hide StrategyName;
    hide HistoryEntry;
    hide RequestFields;
    var p0 := HistoryEntry(q, outcome);
    var p1 := p0 + Ascii(" plan=") + Number(p.planId);
    var p2 := p1 + Ascii(" strategy=") + StrategyName(p.strategy);
    var p3 := p2 + Ascii(" candidate=") + Number(p.candidateId);
    FieldAdded(p0, Ascii("plan="), Number(p.planId), sep);
    FieldAdded(p1, Ascii("strategy="), StrategyName(p.strategy), sep);
    FieldAdded(p2, Ascii("candidate="), Number(p.candidateId), sep);
    FieldAdded(p3, Ascii("digest="), p.digest, sep);
    assert HistoryEntryWithPlan(q, outcome, p) == p3 + Ascii(" digest=") + p.digest;
  }

  lemma RestartLabels()
    ensures Ascii("coordinator restart; epoch=") ==
              Ascii("coordinator") + ([' ' as int] + Ascii("restart;")) + ([' ' as int] + Ascii("epoch="))
    ensures ' ' as int !in Ascii("coordinator") && ' ' as int !in Ascii("restart;") && ' ' as int !in Ascii("epoch=")
    ensures Ascii(" boot=") == [' ' as int] + Ascii("boot=") && ' ' as int !in Ascii("boot=")
  {
  }

  /** The entry of a restart names the new epoch and the new boot. */
  lemma RestartReads(epoch: u64, boot: u64)
    ensures Split(RestartEntry(epoch, boot), ' ' as int) ==
              [Ascii("coordinator"), Ascii("restart;"), Ascii("epoch=") + Number(epoch), Ascii("boot=") + Number(boot)]
  {
    var sep := ' ' as int;
    RestartLabels();
    NumberIsPlain(epoch);
    NumberIsPlain(boot);
    hide Split;
    hide Ascii;
    hide Number;
    var p0 := Ascii("coordinator");
    var p1 := p0 + ([sep] + Ascii("restart;")) + [];
    var p2 := p1 + ([sep] + Ascii("epoch=")) + Number(epoch);
    SplitWhole(p0, sep);
    FieldAdded(p0, Ascii("restart;"), [], sep);
    FieldAdded(p1, Ascii("epoch="), Number(epoch), sep);
    FieldAdded(p2, Ascii("boot="), Number(boot), sep);
    assert p2 == Ascii("coordinator restart; epoch=") + Number(epoch);
    assert RestartEntry(epoch, boot) == p2 + Ascii(" boot=") + Number(boot);
    assert Ascii("restart;") + [] == Ascii("restart;");
  }
}
