/**
  Names of the numbered stage branches, `<stage>/<task>-<N>`, and the choice of the next N.
  Parsing is many-to-one because of leading zeros, so freshness is argued through the numbers.
 */
module BranchNames {
  import opened Wrappers

  predicate IsDigit(c: char) { '0' <= c <= '9' }

  predicate AllDigits(s: string) { forall i | 0 <= i < |s| :: IsDigit(s[i]) }

  function DigitOf(d: nat): (c: char)
    requires d < 10
    ensures IsDigit(c)
  {
    "0123456789"[d]
  }

  function DigitValue(c: char): nat
    requires IsDigit(c)
  {
    c as int - '0' as int
  }

  /** The decimal numeral of a number, without leading zeros. */
  function Decimal(n: nat): (s: string)
    ensures s != "" && AllDigits(s)
  {
    if n < 10 then [DigitOf(n)] else Decimal(n / 10) + [DigitOf(n % 10)]
  }

  /** The number a digit string denotes; leading zeros do not change it. */
  function Value(s: string): nat
    requires AllDigits(s)
  {
    if s == "" then 0 else 10 * Value(s[..|s| - 1]) + DigitValue(s[|s| - 1])
  }

  function TaskBranch(task: string): string { "task/" + task }

  function Prefix(stage: string, task: string): string { stage + "/" + task + "-" }

  function StageBranch(stage: string, task: string, number: nat): string {
    Prefix(stage, task) + Decimal(number)
  }

  /** An exact match of the whole name, never of a mere prefix. */
  function StageBranchNumber(stage: string, task: string, branch: string): Option<nat> {
    var prefix := Prefix(stage, task);
    if prefix <= branch && |prefix| < |branch| && AllDigits(branch[|prefix|..])
    then Some(Value(branch[|prefix|..]))
    else None
  }

  function RecordedNumber(stage: string, task: string, branch: Option<string>): Option<nat> {
    if branch.Some? then StageBranchNumber(stage, task, branch.value) else None
  }

  /** The highest number among the names that are this stage's branches, 0 if there are none. */
  function Highest(stage: string, task: string, names: seq<Option<string>>): (high: nat)
    ensures forall i | 0 <= i < |names| ::
      var n := RecordedNumber(stage, task, names[i]); n.Some? ==> n.value <= high
    ensures high > 0 ==> exists i | 0 <= i < |names| :: RecordedNumber(stage, task, names[i]) == Some(high)
  {
    if names == [] then 0 else
      var rest := Highest(stage, task, names[1..]);
      var n := RecordedNumber(stage, task, names[0]);
      assert forall i | 1 <= i < |names| :: names[i] == names[1..][i - 1];
      if n.Some? && n.value > rest then n.value else rest
  }

  /** The names origin listed, in the form records hold them. */
  function Listed(names: seq<string>): (r: seq<Option<string>>)
    ensures |r| == |names| && forall i | 0 <= i < |names| :: r[i] == Some(names[i])
  {
    seq(|names|, i requires 0 <= i < |names| => Some(names[i]))
  }

  function NextStageNumber(stage: string, task: string, listed: seq<string>, recorded: seq<Option<string>>): (next: nat)
    ensures next > 0
    ensures forall name | name in listed ::
      var n := StageBranchNumber(stage, task, name); n.Some? ==> n.value < next
    ensures forall branch | branch in recorded ::
      var n := RecordedNumber(stage, task, branch); n.Some? ==> n.value < next
    ensures next > 1 ==>
      exists branch :: branch in Listed(listed) + recorded && RecordedNumber(stage, task, branch) == Some(next - 1)
  {
    var names := Listed(listed) + recorded;
    var high := Highest(stage, task, names);
    assert forall i | 0 <= i < |listed| :: names[i] == Some(listed[i]);
    assert forall i | 0 <= i < |recorded| :: names[|listed| + i] == recorded[i];
    high + 1
  }

  // ----- Printing and parsing are inverse on the numbers -----

  lemma {:induction false} DecimalValue(n: nat)
    ensures Value(Decimal(n)) == n
  {
    if n >= 10 {
      DecimalValue(n / 10);
      var s := Decimal(n);
      assert s[..|s| - 1] == Decimal(n / 10);
    } else {
      assert Decimal(n)[..0] == "";
    }
  }

  /** A name parses exactly when it is the prefix followed by digits, and then to what those digits denote. */
  lemma ParseMeaning(stage: string, task: string, branch: string, n: nat)
    ensures StageBranchNumber(stage, task, branch) == Some(n) <==>
      exists digits :: AllDigits(digits) && digits != "" && branch == Prefix(stage, task) + digits && Value(digits) == n
  {
    var prefix := Prefix(stage, task);
    if StageBranchNumber(stage, task, branch) == Some(n) {
      assert branch == prefix + branch[|prefix|..];
    }
    forall digits | AllDigits(digits) && digits != "" && branch == prefix + digits && Value(digits) == n
      ensures StageBranchNumber(stage, task, branch) == Some(n)
    {
      assert branch[|prefix|..] == digits;
    }
  }

  /** The dash that ends the prefix is the last dash, so only one prefix fits a name. */
  lemma SamePrefix(p: string, digits: string, p': string, digits': string)
    requires AllDigits(digits) && AllDigits(digits')
    requires p + "-" + digits == p' + "-" + digits'
    ensures p == p' && digits == digits'
  {
    var whole := p + "-" + digits;
    assert whole[|p|] == '-' && whole[|p'|] == '-';
    assert |p| == |p'|;
    assert p == whole[..|p|] && p' == whole[..|p|];
    assert digits == whole[|p| + 1..] && digits' == whole[|p| + 1..];
  }

  /** A name is read back under its own stage and task, to its own number, and under no other. */
  lemma PrintParse(stage: string, task: string, n: nat, stage': string, task': string)
    ensures StageBranchNumber(stage', task', StageBranch(stage, task, n)) ==
      if stage' + "/" + task' == stage + "/" + task then Some(n) else None
  {
    var own, other := stage + "/" + task, stage' + "/" + task';
    var branch := StageBranch(stage, task, n);
    DecimalValue(n);
    if own == other {
      assert branch[|Prefix(stage', task')|..] == Decimal(n);
    } else if StageBranchNumber(stage', task', branch).Some? {
      var rest := branch[|Prefix(stage', task')|..];
      assert branch == other + "-" + rest == own + "-" + Decimal(n);
      SamePrefix(own, Decimal(n), other, rest);
      assert false;
    }
  }

  /** A stage name holds no slash, so the first slash separates it from the task. */
  lemma StageAndTask(stage: string, task: string, stage': string, task': string)
    requires '/' !in stage && '/' !in stage'
    requires stage + "/" + task == stage' + "/" + task'
    ensures stage == stage' && task == task'
  {
    var whole := stage + "/" + task;
    assert whole[|stage|] == '/' && whole[|stage'|] == '/';
    assert |stage| == |stage'|;
    assert stage == whole[..|stage|] && stage' == whole[..|stage|];
    assert task == whole[|stage| + 1..] && task' == whole[|stage| + 1..];
  }

  lemma DistinctNames(stage: string, task: string, n: nat, stage': string, task': string, n': nat)
    requires '/' !in stage && '/' !in stage'
    ensures StageBranch(stage, task, n) == StageBranch(stage', task', n') <==> stage == stage' && task == task' && n == n'
  {
    PrintParse(stage, task, n, stage', task');
    PrintParse(stage', task', n', stage', task');
    if StageBranch(stage, task, n) == StageBranch(stage', task', n') {
      StageAndTask(stage, task, stage', task');
    }
  }

  /** A name carries a number under one stage and one task only. */
  lemma OneOwner(stage: string, task: string, stage': string, task': string, branch: string)
    requires '/' !in stage && '/' !in stage'
    requires StageBranchNumber(stage, task, branch).Some? && StageBranchNumber(stage', task', branch).Some?
    ensures stage == stage' && task == task'
  {
    var digits, digits' := branch[|Prefix(stage, task)|..], branch[|Prefix(stage', task')|..];
    var own, other := stage + "/" + task, stage' + "/" + task';
    assert branch == own + "-" + digits == other + "-" + digits';
    SamePrefix(own, digits, other, digits');
    StageAndTask(stage, task, stage', task');
  }

  /** Every number from the next one on names a branch that is neither listed nor recorded. */
  lemma NextIsFresh(stage: string, task: string, listed: seq<string>, recorded: seq<Option<string>>, n: nat)
    requires n >= NextStageNumber(stage, task, listed, recorded)
    ensures StageBranch(stage, task, n) !in listed
    ensures Some(StageBranch(stage, task, n)) !in recorded
  {
    PrintParse(stage, task, n, stage, task);
    assert RecordedNumber(stage, task, Some(StageBranch(stage, task, n))) == Some(n);
  }

  /**
    Expiring a task deletes by prefix, not by number. That takes every numbered branch of the task,
    and one of another task exactly when the other's id goes on with a dash after this one's.
   */
  lemma PrefixTakes(stage: string, task: string, other: string, n: nat)
    ensures Prefix(stage, task) <= StageBranch(stage, other, n) <==> task == other || task + "-" <= other
  {
    var prefix, branch := Prefix(stage, task), StageBranch(stage, other, n);
    assert prefix == (stage + "/") + (task + "-");
    assert branch == (stage + "/") + (other + "-" + Decimal(n));
    assert branch[..|stage + "/"|] == stage + "/" && branch[|stage + "/"|..] == other + "-" + Decimal(n);
    assert prefix <= branch <==> task + "-" <= other + "-" + Decimal(n);
    if task + "-" <= other + "-" + Decimal(n) {
      DashEndsPrefix(task, other, Decimal(n));
    }
    if task + "-" <= other {
      assert (other + "-" + Decimal(n))[..|task + "-"|] == other[..|task + "-"|] == task + "-";
    }
  }

  lemma DashEndsPrefix(task: string, other: string, digits: string)
    requires AllDigits(digits) && task + "-" <= other + "-" + digits
    ensures task == other || task + "-" <= other
  {
    var whole := other + "-" + digits;
    assert whole[|task|] == (task + "-")[|task|] == '-';
    if |task| > |other| {
      assert false;
    }
    assert whole[..|task|] == (task + "-")[..|task|] == task;
    if |task| == |other| {
      assert whole[..|task|] == other;
    } else {
      assert whole[..|task| + 1] == other[..|task| + 1] == task + "-";
    }
  }

  /** The digits stand for their own values. */
  lemma DigitsInOrder(d: nat)
    requires d < 10
    ensures DigitOf(d) as int == '0' as int + d && DigitValue(DigitOf(d)) == d && Decimal(d) == [DigitOf(d)]
  {
  }

  /** A printed number has no leading zeros: it is as short as any numeral of its value. */
  lemma {:induction false} NoLeadingZero(n: nat)
    ensures Decimal(n)[0] == '0' ==> n == 0
    ensures n < 10 ==> |Decimal(n)| == 1
  {
    if n < 10 {
    } else {
      NoLeadingZero(n / 10);
    }
  }

  /** Two tasks have two branches, and neither is a stage branch. */
  lemma TaskBranchesDiffer(task: string, other: string, stage: string, n: nat)
    requires stage == "refine" || stage == "implement"
    ensures TaskBranch(task) == TaskBranch(other) <==> task == other
    ensures TaskBranch(task) != StageBranch(stage, other, n)
    ensures TaskBranch("P0-001") == "task/P0-001" && TaskBranch(task) != "main"
  {
    assert TaskBranch(task)[|"task/"|..] == task && TaskBranch(other)[|"task/"|..] == other;
    assert TaskBranch(task)[0] == 't' && StageBranch(stage, other, n)[0] == stage[0];
  }

  /** The ids the tracker's schema allows: a P, digits, a dash and three digits. */
  predicate SchemaId(id: string) {
    && |id| >= 6 && id[0] == 'P' && id[|id| - 4] == '-'
    && AllDigits(id[1..|id| - 4]) && AllDigits(id[|id| - 3..])
  }

  lemma OneDash(id: string, i: nat)
    requires SchemaId(id) && i < |id| && id[i] == '-'
    ensures i == |id| - 4
  {
    forall k | 0 < k < |id| - 4 ensures IsDigit(id[k]) {
      assert id[1..|id| - 4][k - 1] == id[k];
    }
    forall k | |id| - 3 <= k < |id| ensures IsDigit(id[k]) {
      assert id[|id| - 3..][k - (|id| - 3)] == id[k];
    }
  }

  /** Among such ids deletion by prefix takes no other task's numbered branch. */
  lemma SchemaIdsAreApart(stage: string, task: string, other: string, n: nat)
    requires SchemaId(task) && SchemaId(other)
    ensures Prefix(stage, task) <= StageBranch(stage, other, n) <==> task == other
  {
    PrefixTakes(stage, task, other, n);
    if task + "-" <= other {
      assert other[|task|] == (task + "-")[|task|] == '-';
      assert other[|task| - 4] == (task + "-")[|task| - 4] == '-';
      OneDash(other, |task|);
      OneDash(other, |task| - 4);
      assert false;
    }
  }

  /** A name under the prefix is a numbered branch exactly when digits, and at least one, follow. */
  predicate DigitsFollow(prefix: string, name: string)
    requires prefix <= name
  {
    name != prefix && AllDigits(name[|prefix|..])
  }

  /** Leading zeros: two different names can carry the same number. */
  lemma ParsingIsManyToOne()
    ensures StageBranchNumber("refine", "P0-001", "refine/P0-001-7") == Some(7)
    ensures StageBranchNumber("refine", "P0-001", "refine/P0-001-07") == Some(7)
  {
    assert "refine/P0-001-7"[|Prefix("refine", "P0-001")|..] == "7";
    assert "refine/P0-001-07"[|Prefix("refine", "P0-001")|..] == "07";
    assert "7"[..0] == "" && "07"[..1] == "0" && "0"[..0] == "";
    assert Value("7") == 7;
    assert Value("07") == 7;
  }
}
