/** Evaluation of a submitted nonce: src/edge/share-validator.js over evaluateShare and shareDecision of src/stratum/job-registry.js. */
module ShareValidator {
  import opened Wrappers
  import opened Radix
  import ConvertBits
  import opened Targets
  import opened JobRegistry

  datatype Family = GodMiner | Other

  datatype Outcome = Accepted | Rejected | AckedStale | AckedUnknown

  datatype Reason = NoReason | BadNonceFormat | UnknownJob | LowDifficulty | StalePrevTip

  datatype Verdict = Verdict(outcome: Outcome, reason: Reason, isBlock: bool, work: nat)

  /** The source throws a RangeError when it divides by a zero target. */
  datatype Result = Returned(verdict: Verdict) | DivisionByZero

  /** Eaglesong over header hash and nonce; any function with 32-byte results. */
  type Pow = (string, string) -> seq<nat>

  const K7_DEFAULT_EXTRANONCE1: string := "0011223344556677"

  predicate HexChars(s: string) {
    forall i | 0 <= i < |s| :: '0' <= s[i] <= '9' || 'a' <= s[i] <= 'f' || 'A' <= s[i] <= 'F'
  }

  function Strip(s: string): string {
    if |s| >= 2 && s[0] == '0' && s[1] == 'x' then s[2..] else s
  }

  function PadStart(s: string, n: nat): (r: string)
    ensures |r| == if |s| < n then n else |s|
    decreases n - |s|
  {
    if |s| < n then PadStart("0" + s, n) else s
  }

  function ComposeNonce(family: Family, extranonce1: string, nonceRaw: string): string {
    var n8 := Strip(nonceRaw);
    if family == GodMiner then (if extranonce1 == "" then K7_DEFAULT_EXTRANONCE1 else extranonce1) + n8 else PadStart(n8, 32)
  }

  predicate WellFormed(family: Family, extranonce1: string, nonceRaw: string) {
    && 1 <= |nonceRaw| <= 64
    && ((|nonceRaw| >= 3 && nonceRaw[0] == '0' && nonceRaw[1] == 'x' && HexChars(nonceRaw[2..])) || HexChars(nonceRaw))
    && |ComposeNonce(family, extranonce1, nonceRaw)| == 32
  }

  function Quotient(a: nat, b: nat): nat
    requires b > 0
  {
    a / b
  }

  function WorkUnits(targetHex: string): Option<nat> {
    if HexLEToNumber(targetHex) == 0 then None else Some(Quotient(Mask256(), HexLEToNumber(targetHex)))
  }

  ghost predicate Proper(pow: Pow, job: Job, vardiffTarget: string) {
    && |job.target| == 2 * BYTES && |vardiffTarget| == 2 * BYTES
    && forall nonce :: |pow(job.powHash, nonce)| == BYTES && Below(pow(job.powHash, nonce), 256)
  }

  function PaddedNonce(family: Family, extranonce1: string, nonceRaw: string): string {
    PadStart(Strip(ComposeNonce(family, extranonce1, nonceRaw)), 32)
  }

  method ValidateShare(family: Family, extranonce1: string, nonceRaw: string, job: Option<Job>, isCurrent: bool, vardiffTarget: string, pow: Pow)
    returns (r: Result)
    requires job.Some? ==> Proper(pow, job.value, vardiffTarget)
    ensures r == Validate(family, extranonce1, nonceRaw, job, isCurrent, vardiffTarget, pow)
  {
    if |nonceRaw| == 0 || |nonceRaw| > 64 {
      return Returned(Verdict(Rejected, BadNonceFormat, false, 0));
    }
    var prefixed := |nonceRaw| >= 3 && nonceRaw[0] == '0' && nonceRaw[1] == 'x' && HexChars(nonceRaw[2..]);
    if !prefixed && !HexChars(nonceRaw) {
      return Returned(Verdict(Rejected, BadNonceFormat, false, 0));
    }
    var fullNonce := ComposeNonce(family, extranonce1, nonceRaw);
    if |fullNonce| != 32 {
      return Returned(Verdict(Rejected, BadNonceFormat, false, 0));
    }
    if job.None? {
      return Returned(Verdict(AckedUnknown, UnknownJob, false, 0));
    }
    // evaluateShare
    var hash := pow(job.value.powHash, PadStart(Strip(fullNonce), 32));
    var isBlock := MeetsTargetLE(hash, job.value.target);
    var meetsLocal := MeetsTargetLE(hash, vardiffTarget);
    // shareDecision
    if !meetsLocal && isCurrent && !isBlock {
      return Returned(Verdict(Rejected, LowDifficulty, false, 0));
    }
    var work := WorkUnits(vardiffTarget);
    if work.None? {
      return DivisionByZero;
    }
    var stale := !isCurrent && !isBlock;
    r := Returned(Verdict(if stale then AckedStale else Accepted, if stale then StalePrevTip else NoReason, isBlock, work.value));
  }

  ghost function Validate(family: Family, extranonce1: string, nonceRaw: string, job: Option<Job>, isCurrent: bool, vardiffTarget: string, pow: Pow): Result
    requires job.Some? ==> Proper(pow, job.value, vardiffTarget)
  {
    if !WellFormed(family, extranonce1, nonceRaw) then Returned(Verdict(Rejected, BadNonceFormat, false, 0))
    else if job.None? then Returned(Verdict(AckedUnknown, UnknownJob, false, 0))
    else
      var hash := pow(job.value.powHash, PaddedNonce(family, extranonce1, nonceRaw));
      var isBlock, meetsLocal := MeetsTarget(hash, job.value.target), MeetsTarget(hash, vardiffTarget);
      if !meetsLocal && isCurrent && !isBlock then Returned(Verdict(Rejected, LowDifficulty, false, 0))
      else if WorkUnits(vardiffTarget).None? then DivisionByZero
      else if !isCurrent && !isBlock then Returned(Verdict(AckedStale, StalePrevTip, isBlock, WorkUnits(vardiffTarget).value))
      else Returned(Verdict(Accepted, NoReason, isBlock, WorkUnits(vardiffTarget).value))
  }

  // ---------- what a credit means ----------

  ghost function HashNumber(pow: Pow, job: Job, family: Family, extranonce1: string, nonceRaw: string): nat {
    Num(pow(job.powHash, PaddedNonce(family, extranonce1, nonceRaw)), 256)
  }

  /** Both comparisons of one share, as comparisons of numbers. */
  lemma ShareNumbers(family: Family, extranonce1: string, nonceRaw: string, job: Job, vardiffTarget: string, pow: Pow)
    requires Proper(pow, job, vardiffTarget)
    ensures var hash, h := pow(job.powHash, PaddedNonce(family, extranonce1, nonceRaw)), HashNumber(pow, job, family, extranonce1, nonceRaw);
      && (MeetsTarget(hash, job.target) <==> h <= HexLEToNumber(job.target))
      && (MeetsTarget(hash, vardiffTarget) <==> h <= HexLEToNumber(vardiffTarget))
  {
    hide PaddedNonce, MeetsTarget, HexLEToNumber, Num;
    var hash := pow(job.powHash, PaddedNonce(family, extranonce1, nonceRaw));
    MeetsIffAtMost(hash, job.target);
    MeetsIffAtMost(hash, vardiffTarget);
  }

  /**
   A share is credited exactly when it is well formed, names a known job, solves the network target or, for the
   current job, the assigned one, and the assigned target is not zero; it is flagged as a block exactly when it
   solves the network target. Its work is that of the assigned target.
   */
  lemma CreditedIff(family: Family, extranonce1: string, nonceRaw: string, job: Job, isCurrent: bool, vardiffTarget: string, pow: Pow)
    requires Proper(pow, job, vardiffTarget)
    ensures var r, h := Validate(family, extranonce1, nonceRaw, Some(job), isCurrent, vardiffTarget, pow), HashNumber(pow, job, family, extranonce1, nonceRaw);
      && (r.Returned? && r.verdict.outcome == Accepted <==>
            WellFormed(family, extranonce1, nonceRaw) && HexLEToNumber(vardiffTarget) != 0 &&
            (h <= HexLEToNumber(job.target) || (isCurrent && h <= HexLEToNumber(vardiffTarget))))
      && (r.Returned? && r.verdict.outcome == Accepted ==>
            (r.verdict.isBlock <==> h <= HexLEToNumber(job.target)) && r.verdict.work == Quotient(Mask256(), HexLEToNumber(vardiffTarget)))
  {
    ShareNumbers(family, extranonce1, nonceRaw, job, vardiffTarget, pow);
    hide MeetsTarget, HexLEToNumber, WellFormed, HashNumber, Mask256, PaddedNonce;
  }

  /** A retained job's solution of its network target is credited as a block exactly when the assigned target is not zero. */
  lemma BlockCreditedIff(added: seq<Job>, limit: nat, k: nat, family: Family, extranonce1: string, nonceRaw: string, isCurrent: bool, vardiffTarget: string, pow: Pow)
    requires KeysDistinct(added) && k < |added| && |added| - 1 - k < limit
    requires Proper(pow, added[k], vardiffTarget) && WellFormed(family, extranonce1, nonceRaw)
    requires HashNumber(pow, added[k], family, extranonce1, nonceRaw) <= HexLEToNumber(added[k].target)
    ensures Lookup(AddAll(added, limit), added[k].id) == Some(added[k])
    ensures IsBlock(Validate(family, extranonce1, nonceRaw, Lookup(AddAll(added, limit), added[k].id), isCurrent, vardiffTarget, pow))
      <==> HexLEToNumber(vardiffTarget) != 0
  {
    hide Validate, WellFormed, HashNumber, HexLEToNumber, AddAll, Mask256;
    RetainedIff(added, limit, k);
    CreditedIff(family, extranonce1, nonceRaw, added[k], isCurrent, vardiffTarget, pow);
  }

  predicate IsBlock(r: Result) {
    r.Returned? && r.verdict.outcome == Accepted && r.verdict.isBlock
  }

  /** vardiff's default upper bound. */
  const MAX_DIFF: nat := 1_000_000_000

  lemma PowTen()
    ensures Pow2(10) == 1024
  {
  }

  /** maxDiff times 10^6 is far below the difficulty at which a target would reach zero. */
  lemma ClampedBelow(micros: nat)
    requires micros <= MICROS * MAX_DIFF
    ensures micros <= Pow2(224) * MICROS
  {
    PowTen();
    hide Pow2;
    PowAdd(10, 10);
    PowAdd(20, 10);
    PowAdd(30, 194);
    Bigger(1, Pow2(194), Pow2(30));
    Bigger(MAX_DIFF, Pow2(224), MICROS);
  }

  /**
   A well-formed solution of the network target of a job the registry still retains is credited and flagged as a
   block, however old the job and whatever the difficulty assigned: for every difficulty from 10^-6 to 2^224, and so
   for every one vardiff clamps to. Outside, diffToTargetLE or the work of a zero target divides by zero.
   */
  lemma BlockNeverDropped(added: seq<Job>, limit: nat, k: nat, family: Family, extranonce1: string, nonceRaw: string, isCurrent: bool, d: Difficulty, pow: Pow)
    requires KeysDistinct(added) && k < |added| && |added| - 1 - k < limit
    requires DiffToTargetLE(d).Some? ==> Proper(pow, added[k], DiffToTargetLE(d).value)
    requires WellFormed(family, extranonce1, nonceRaw)
    requires HashNumber(pow, added[k], family, extranonce1, nonceRaw) <= HexLEToNumber(added[k].target)
    ensures Lookup(AddAll(added, limit), added[k].id) == Some(added[k])
    ensures DiffToTargetLE(d).Some? && IsBlock(Validate(family, extranonce1, nonceRaw, Some(added[k]), isCurrent, DiffToTargetLE(d).value, pow))
      <==> d.NotPositive? || 1 <= d.micros <= Pow2(224) * MICROS
    ensures d.Rounded? && 1 <= d.micros <= MICROS * MAX_DIFF ==>
      DiffToTargetLE(d).Some? && IsBlock(Validate(family, extranonce1, nonceRaw, Some(added[k]), isCurrent, DiffToTargetLE(d).value, pow))
  {
    hide Validate, WellFormed, HashNumber, HexLEToNumber, AddAll, Mask256, DiffToTargetLE, Pow2, IsBlock, KeysDistinct;
    AssignedIff(d);
    if d.Rounded? && d.micros <= MICROS * MAX_DIFF {
      ClampedBelow(d.micros);
    }
    RetainedIff(added, limit, k);
    if DiffToTargetLE(d).Some? {
      BlockCreditedIff(added, limit, k, family, extranonce1, nonceRaw, isCurrent, DiffToTargetLE(d).value, pow);
    }
  }

  /** Only a share of the current job that meets neither target is rejected as too easy. */
  lemma LowDifficultyIff(family: Family, extranonce1: string, nonceRaw: string, job: Job, isCurrent: bool, vardiffTarget: string, pow: Pow)
    requires Proper(pow, job, vardiffTarget)
    ensures var r, h := Validate(family, extranonce1, nonceRaw, Some(job), isCurrent, vardiffTarget, pow), HashNumber(pow, job, family, extranonce1, nonceRaw);
      r.Returned? && r.verdict.reason == LowDifficulty <==>
        WellFormed(family, extranonce1, nonceRaw) && isCurrent && h > HexLEToNumber(job.target) && h > HexLEToNumber(vardiffTarget)
  {
    ShareNumbers(family, extranonce1, nonceRaw, job, vardiffTarget, pow);
    hide MeetsTarget, HexLEToNumber, WellFormed, HashNumber, Mask256, PaddedNonce;
  }

  // ---------- nonces, verdicts and work, said once more ----------

  /** raw is digits, or 0x and digits. */
  ghost predicate DigitsIn(raw: string, digits: string) {
    raw == "0x" + digits || (raw == digits && !(exists rest: string :: raw == "0x" + rest))
  }

  ghost predicate OnlyZeros(s: string) {
    forall k | 0 <= k < |s| :: s[k] == '0'
  }

  /** zeros fill s up to n characters, if it is shorter. */
  ghost predicate Fills(zeros: string, s: string, n: nat) {
    OnlyZeros(zeros) && |zeros| == if |s| < n then n - |s| else 0
  }

  /** nonce is what the miner hashed: the session's prefix first, or else the digits filled up with leading zeros. */
  ghost predicate NonceOf(nonce: string, family: Family, extranonce1: string, digits: string) {
    if family == GodMiner then nonce == (if extranonce1 == "" then "0011223344556677" else extranonce1) + digits
    else exists zeros :: Fills(zeros, digits, 32) && nonce == zeros + digits
  }

  lemma StripMeans(raw: string)
    ensures DigitsIn(raw, Strip(raw))
    ensures forall digits :: DigitsIn(raw, digits) ==> digits == Strip(raw)
  {
    if |raw| >= 2 && raw[0] == '0' && raw[1] == 'x' {
      assert raw == "0x" + raw[2..];
    }
    forall digits: string | raw == "0x" + digits ensures digits == Strip(raw) {
      assert digits == raw[2..];
    }
  }

  lemma {:induction false} PadMeans(s: string, n: nat) returns (zeros: string)
    ensures Fills(zeros, s, n) && PadStart(s, n) == zeros + s
    decreases n - |s|
  {
    if |s| < n {
      var rest := PadMeans("0" + s, n);
      zeros := rest + "0";
      hide PadStart;
      OneMoreZero(rest, s);
      PadOnce(s, n);
    } else {
      zeros := "";
      assert "" + s == s;
    }
  }

  lemma OneMoreZero(rest: string, s: string)
    requires OnlyZeros(rest)
    ensures OnlyZeros(rest + "0") && rest + "0" + s == rest + ("0" + s)
  {
  }

  lemma PadOnce(s: string, n: nat)
    requires |s| < n
    ensures PadStart(s, n) == PadStart("0" + s, n)
  {
  }

  lemma NonceMeans(family: Family, extranonce1: string, nonceRaw: string, digits: string)
    requires DigitsIn(nonceRaw, digits)
    ensures NonceOf(ComposeNonce(family, extranonce1, nonceRaw), family, extranonce1, digits)
  {
    StripMeans(nonceRaw);
    if family == Other {
      var zeros := PadMeans(digits, 32);
      assert Fills(zeros, digits, 32);
    }
  }

  lemma PrefixedIff(raw: string)
    ensures (1 <= |raw| && ((|raw| >= 3 && raw[0] == '0' && raw[1] == 'x' && HexChars(raw[2..])) || HexChars(raw)))
      <==> Strip(raw) != "" && HexChars(Strip(raw))
  {
  }

  /** A nonce is accepted exactly when it is one to 64 characters of digits, 0x aside, and makes 32 digits with its prefix. */
  lemma WellFormedIff(family: Family, extranonce1: string, nonceRaw: string, digits: string)
    requires DigitsIn(nonceRaw, digits)
    ensures WellFormed(family, extranonce1, nonceRaw) <==>
      && |nonceRaw| <= 64 && digits != "" && HexChars(digits)
      && (if family == Other then |digits| <= 32 else |digits| + (if extranonce1 == "" then 16 else |extranonce1|) == 32)
  {
    StripMeans(nonceRaw);
    PrefixedIff(nonceRaw);
    hide HexChars, Strip;
  }

  /** What is hashed is the composed nonce itself, unless it starts with 0x. */
  lemma HashedNonce(family: Family, extranonce1: string, nonceRaw: string)
    requires WellFormed(family, extranonce1, nonceRaw)
    requires var nonce := ComposeNonce(family, extranonce1, nonceRaw); nonce[0] != '0' || nonce[1] != 'x'
    ensures PaddedNonce(family, extranonce1, nonceRaw) == ComposeNonce(family, extranonce1, nonceRaw)
  {
  }

  /** The verdicts that credit nothing, and the error. */
  lemma VerdictIff(family: Family, extranonce1: string, nonceRaw: string, job: Option<Job>, isCurrent: bool, vardiffTarget: string, pow: Pow)
    requires job.Some? ==> Proper(pow, job.value, vardiffTarget)
    ensures var r, good := Validate(family, extranonce1, nonceRaw, job, isCurrent, vardiffTarget, pow), WellFormed(family, extranonce1, nonceRaw);
      && (r == Returned(Verdict(Rejected, BadNonceFormat, false, 0)) <==> !good)
      && (r == Returned(Verdict(AckedUnknown, UnknownJob, false, 0)) <==> good && job.None?)
      && (job.Some? ==>
            var h := HashNumber(pow, job.value, family, extranonce1, nonceRaw);
            var network, local := h <= HexLEToNumber(job.value.target), h <= HexLEToNumber(vardiffTarget);
            && (r.Returned? && r.verdict.outcome == AckedStale <==> good && !isCurrent && !network && HexLEToNumber(vardiffTarget) != 0)
            && (r.DivisionByZero? <==> good && HexLEToNumber(vardiffTarget) == 0 && (network || local || !isCurrent)))
  {
    if job.Some? {
      ShareNumbers(family, extranonce1, nonceRaw, job.value, vardiffTarget, pow);
    }
    hide MeetsTarget, HexLEToNumber, WellFormed, HashNumber, Mask256, PaddedNonce;
  }

  /** Work is the whole part of 2^256 - 1 over the target, and difficulty 1 is worth 2^32 - 1. */
  lemma WorkMeans(targetHex: string)
    requires HexLEToNumber(targetHex) != 0
    ensures WorkUnits(targetHex).Some? && WholePart(WorkUnits(targetHex).value, Pow2(256) - 1, HexLEToNumber(targetHex))
    ensures HexLEToNumber(targetHex) == Pow2(224) ==> WorkUnits(targetHex) == Some(0xFFFF_FFFF)
  {
    MaskRange();
    hide Pow2, Mask256, HexLEToNumber;
    DividesDown(Pow2(256) - 1, HexLEToNumber(targetHex));
    if HexLEToNumber(targetHex) == Pow2(224) {
      PowAdd(224, 32);
      ConvertBits.Pow32();
      DivMod(0xFFFF_FFFF, Pow2(224), Pow2(224) - 1);
    }
  }

  ghost predicate IsHexChar(c: char) {
    c in "0123456789abcdef" || c in "ABCDEF"
  }

  /** Digits of either case. */
  lemma HexCharsIff(s: string)
    ensures HexChars(s) <==> forall k | 0 <= k < |s| :: IsHexChar(s[k])
  {
    forall k | 0 <= k < |s| ensures IsHexChar(s[k]) <==> '0' <= s[k] <= '9' || 'a' <= s[k] <= 'f' || 'A' <= s[k] <= 'F' {
      OneHexChar(s[k]);
    }
    hide IsHexChar;
  }

  lemma OneHexChar(c: char)
    ensures IsHexChar(c) <==> '0' <= c <= '9' || 'a' <= c <= 'f' || 'A' <= c <= 'F'
  {
    if '0' <= c <= '9' {
      assert c == "0123456789abcdef"[c as int - '0' as int];
    } else if 'a' <= c <= 'f' {
      assert c == "0123456789abcdef"[c as int - 'a' as int + 10];
    } else if 'A' <= c <= 'F' {
      assert c == "ABCDEF"[c as int - 'A' as int];
    }
  }
}
