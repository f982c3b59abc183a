/** The texts a planner writes into plans and history: short, and free of NUL characters. */
module Wording {
  import opened Integers
  import opened Domain
  import opened Evidence
  import opened Selection

  /** A text that a snapshot keeps as it is: no NUL, and well below the reader's limit. */
  predicate Plain(s: text) { 0 !in s && |s| <= 1000 }

  /** A character of a literal. */
  function CharacterByte(c: char): (b: byte)
    ensures b != 0
  {
    if 1 <= c as int < 128 then c as int else '?' as int
  }

  function Ascii(s: string): (t: text)
    ensures |t| == |s| && 0 !in t
  {
    seq(|s|, i requires 0 <= i < |s| => CharacterByte(s[i]))
  }

  /** `std::to_string` of an unsigned number below `10^k`. */
  function Decimal(n: nat, k: nat): (t: text)
    requires 0 < k && n < Power10(k)
    ensures 0 !in t && |t| <= k
    decreases k
  {
    if n < 10 then [48 + n] else
      Digits(n, k);
      Decimal(n / 10, k - 1) + [48 + n % 10]
  }

  function Power10(k: nat): nat { if k == 0 then 1 else 10 * Power10(k - 1) }

  lemma Digits(n: nat, k: nat)
    requires 10 <= n < Power10(k)
    ensures 1 < k && n / 10 < Power10(k - 1)
  {
    assert Power10(1) == 10;
  }

  function Number(n: u64): (t: text)
    ensures 0 !in t && |t| <= 20
  {
    TwentyDigits();
    Decimal(n, 20)
  }

  lemma TwentyDigits()
    ensures TWO_64 < Power10(20)
  {
    assert Power10(4) == 10000;
    assert Power10(8) == 1_0000_0000;
    assert Power10(12) == 1_0000_0000_0000;
    assert Power10(16) == 1_0000_0000_0000_0000;
    assert Power10(20) == 1_0000_0000_0000_0000_0000;
  }

  function StrategyName(s: Strategy): (t: text)
    ensures 0 !in t && |t| <= 14
  {
    match s
    case 0 => Ascii("RESTORE")
    case 1 => Ascii("RESTART")
    case 2 => Ascii("MIGRATE")
    case 3 => Ascii("REHYDRATE")
    case 4 => Ascii("SHADOW_PROMOTE")
    case 5 => Ascii("FAILOVER")
    case 6 => Ascii("RECOMPUTE")
    case _ => Ascii("UNKNOWN")
  }

  function OutcomeName(o: PlanOutcome): (t: text)
    ensures 0 !in t && |t| <= 25
  {
    match o
    case PlanFound => Ascii("PLAN_FOUND")
    case NoValidPlan => Ascii("NO_VALID_PLAN")
    case NoDeadlineFeasiblePlan => Ascii("NO_DEADLINE_FEASIBLE_PLAN")
    case NoCandidates => Ascii("NO_CANDIDATES")
  }

  /** `build_payload`. */
  function Payload(c: Candidate): (t: text)
    ensures Plain(t)
  {
    StrategyName(c.strategy) + Ascii("|worker=") + Number(c.targetWorker) + Ascii("|boot=") + Number(c.targetBoot)
    + Ascii("|state=") + Number(c.stateSource) + Ascii("|state_gen=") + Number(c.stateGeneration)
  }

  function HexDigit(n: nat): (b: byte)
    requires n < 16
    ensures b != 0
  {
    if n < 10 then 48 + n else 87 + n
  }

  /** `hex_encode`. */
  function Hex(s: seq<byte>): (t: text)
    ensures |t| == 2 * |s| && 0 !in t
  {
    if s == [] then [] else [HexDigit(s[0] / 16), HexDigit(s[0] % 16)] + Hex(s[1..])
  }

  /** `record_history`, without and with a plan. */
  function HistoryEntry(q: Request, outcome: PlanOutcome): (t: text)
    ensures Plain(t) && |t| <= 88
  {
    Ascii("req=") + Number(q.requestId) + Ascii(" workload=") + Number(q.workload) + Ascii(" outcome=") + OutcomeName(outcome)
  }

  function HistoryEntryWithPlan(q: Request, outcome: PlanOutcome, p: Plan): (t: text)
    ensures Plain(p.digest) && |p.digest| <= 64 ==> Plain(t)
  {
    HistoryEntry(q, outcome) + Ascii(" plan=") + Number(p.planId) + Ascii(" strategy=") + StrategyName(p.strategy)
    + Ascii(" candidate=") + Number(p.candidateId) + Ascii(" digest=") + p.digest
  }

  /** The entry that a restart appends. */
  function RestartEntry(epoch: u64, boot: u64): (t: text)
    ensures Plain(t)
  {
    Ascii("coordinator restart; epoch=") + Number(epoch) + Ascii(" boot=") + Number(boot)
  }
}
