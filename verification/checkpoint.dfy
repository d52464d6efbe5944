/** Checkpoint rotation after each save (train.py, main loop). A checkpoint
    is written as `step` + the iteration number printed with `%.8d` +
    `.h5`. The weights directory is then listed; every name that ends in
    `h5` and starts with `step` is kept in listing order with the integer
    read from its characters 4 to 11, and when more than ten such names
    exist the first one with the smallest number is deleted. A name whose
    field is not an integer makes `int` raise and stops training. */
module Checkpoint {

  datatype Option<T> = None | Some(value: T)

  /** `Failure` carries the name whose step field `int` rejected. */
  datatype Result<T> = Success(value: T) | Failure(culprit: string)

  /** Checkpoints kept after a save. */
  const MaxKept: nat := 10

  /** Least number of digits `%.8d` prints. */
  const StepWidth: nat := 8

  // ---------------------------------------------------------------------
  // Python strings
  // ---------------------------------------------------------------------

  /** A Python slice bound: negative values count from the end, and the
      result is clamped to [0, len]. */
  function SliceBound(i: int, len: nat): (r: nat)
    ensures r <= len
    ensures 0 <= i <= len ==> r == i
    ensures i > len ==> r == len
    ensures i < 0 ==> r == if i + len < 0 then 0 else i + len
  {
    if i < 0 then (if i + len < 0 then 0 else i + len)
    else if i > len then len
    else i
  }

  /** Python's `s[lo:hi]`; an empty string when the bounds cross. */
  function Slice(s: string, lo: int, hi: int): (r: string)
    ensures 0 <= lo <= hi <= |s| ==> r == s[lo..hi]
    ensures |r| <= |s|
  {
    var a := SliceBound(lo, |s|);
    var b := SliceBound(hi, |s|);
    if a <= b then s[a..b] else []
  }

  predicate IsDigit(c: char)
  {
    '0' <= c <= '9'
  }

  predicate AllDigits(s: string)
  {
    forall i :: 0 <= i < |s| ==> IsDigit(s[i])
  }

  function DigitValue(c: char): (d: nat)
    requires IsDigit(c)
    ensures d < 10
  {
    (c as int) - ('0' as int)
  }

  function DigitChar(d: nat): (c: char)
    requires d < 10
    ensures IsDigit(c) && DigitValue(c) == d
  {
    (('0' as int) + d) as char
  }

  /** The number a string of decimal digits spells; the empty string is 0. */
  function ParseDigits(s: string): nat
    requires AllDigits(s)
    decreases |s|
  {
    if s == [] then 0 else ParseDigits(s[..|s| - 1]) * 10 + DigitValue(s[|s| - 1])
  }

  /** Python's `int(s)`: an optional sign and at least one decimal digit.
      Anything else raises `ValueError`, written `None`. */
  function ParseInt(s: string): (r: Option<int>)
    ensures AllDigits(s) && s != [] ==> r == Some(ParseDigits(s))
    ensures s == [] || (!IsDigit(s[0]) && s[0] != '+' && s[0] != '-') ==> r == None
    ensures r.Some? <==> ((s != [] && AllDigits(s))
                          || (|s| > 1 && (s[0] == '+' || s[0] == '-') && AllDigits(s[1..])))
    ensures |s| > 1 && s[0] == '+' && AllDigits(s[1..]) ==> r == Some(ParseDigits(s[1..]))
    ensures |s| > 1 && s[0] == '-' && AllDigits(s[1..]) ==> r == Some(-(ParseDigits(s[1..]) as int))
  {
    if s != [] && (s[0] == '+' || s[0] == '-') then
      if |s| > 1 && AllDigits(s[1..]) then
        var magnitude: int := ParseDigits(s[1..]);
        Some(if s[0] == '-' then -magnitude else magnitude)
      else None
    else if s != [] && AllDigits(s) then Some(ParseDigits(s))
    else None
  }

  /** Shortest decimal representation of n. */
  function DigitsOf(n: nat): (s: string)
    ensures |s| >= 1 && AllDigits(s)
    decreases n
  {
    if n < 10 then [DigitChar(n)] else DigitsOf(n / 10) + [DigitChar(n % 10)]
  }

  function Zeros(k: nat): (s: string)
    ensures |s| == k && AllDigits(s)
  {
    seq(k, _ => '0')
  }

  /** `%.8d` of a non-negative number: its digits, left-padded with zeros
      to at least eight. */
  function PadDigits(n: nat): (s: string)
    ensures |s| >= StepWidth && AllDigits(s)
  {
    var d := DigitsOf(n);
    if |d| < StepWidth then Zeros(StepWidth - |d|) + d else d
  }

  function Pow10(k: nat): (r: nat)
    ensures r >= 1
  {
    if k == 0 then 1 else 10 * Pow10(k - 1)
  }

  // ---------------------------------------------------------------------
  // Decimal lemmas
  // ---------------------------------------------------------------------

  lemma ParseDigitsAppend(s: string, c: char)
    requires AllDigits(s) && IsDigit(c)
    ensures AllDigits(s + [c])
    ensures ParseDigits(s + [c]) == ParseDigits(s) * 10 + DigitValue(c)
  {
    assert (s + [c])[..|s|] == s;
  }

  /** Reading back the digits of n gives n. */
  lemma {:induction false} ParseDigitsOf(n: nat)
    ensures ParseDigits(DigitsOf(n)) == n
    decreases n
  {
    if n < 10 {
      assert DigitsOf(n)[..0] == [];
    } else {
      ParseDigitsOf(n / 10);
      ParseDigitsAppend(DigitsOf(n / 10), DigitChar(n % 10));
    }
  }

  /** Leading zeros do not change the value. */
  lemma {:induction false} LeadingZeros(k: nat, s: string)
    requires AllDigits(s)
    ensures AllDigits(Zeros(k) + s)
    ensures ParseDigits(Zeros(k) + s) == ParseDigits(s)
    decreases |s|
  {
    if s == [] {
      assert Zeros(k) + s == Zeros(k);
      ZerosParse(k);
    } else {
      var init, last := s[..|s| - 1], s[|s| - 1];
      assert s == init + [last];
      assert Zeros(k) + s == (Zeros(k) + init) + [last];
      LeadingZeros(k, init);
      ParseDigitsAppend(Zeros(k) + init, last);
      ParseDigitsAppend(init, last);
    }
  }

  lemma {:induction false} ZerosParse(k: nat)
    ensures ParseDigits(Zeros(k)) == 0
    decreases k
  {
    if k > 0 {
      assert Zeros(k) == Zeros(k - 1) + ['0'];
      ZerosParse(k - 1);
      ParseDigitsAppend(Zeros(k - 1), '0');
    }
  }

  /** A number below 10^k has at most k digits. */
  lemma {:induction false} DigitsLength(n: nat, k: nat)
    requires k >= 1 && n < Pow10(k)
    ensures |DigitsOf(n)| <= k
    decreases k
  {
    assert Pow10(1) == 10;
    if n >= 10 {
      DigitsLength(n / 10, k - 1);
    }
  }

  /** A number of at least 10^k has more than k digits. */
  lemma {:induction false} DigitsAtLeast(n: nat, k: nat)
    requires n >= Pow10(k)
    ensures |DigitsOf(n)| >= k + 1
    decreases k
  {
    if k > 0 {
      assert n / 10 >= Pow10(k - 1);
      DigitsAtLeast(n / 10, k - 1);
    }
  }

  // ---------------------------------------------------------------------
  // Names
  // ---------------------------------------------------------------------

  /** `'step%.8d.h5' % n`, the name of the checkpoint saved at step n. */
  function FormatStep(n: nat): string
  {
    "step" + PadDigits(n) + ".h5"
  }

  /** The listing filter: the name ends in `h5` and starts with `step`. */
  predicate Qualifies(name: string)
  {
    Slice(name, |name| - 2, |name|) == "h5" && Slice(name, 0, 4) == "step"
  }

  /** `name[4:12]`: the eight characters after `step`, or fewer. */
  function StepField(name: string): (f: string)
    ensures |f| <= 8
  {
    Slice(name, 4, 12)
  }

  /** `int(name[4:12])`. */
  function ParseStep(name: string): Option<int>
  {
    ParseInt(StepField(name))
  }

  /** Every saved checkpoint passes the listing filter. */
  lemma FormatStepQualifies(n: nat)
    ensures Qualifies(FormatStep(n))
  {
    var name := FormatStep(n);
    assert name[|name| - 2..] == "h5";
    assert name[..4] == "step";
  }

  /** Below 10^8 the name reads back as its step. */
  lemma FormatStepRoundTrip(n: nat)
    requires n < Pow10(StepWidth)
    ensures ParseStep(FormatStep(n)) == Some(n)
  {
    var d := DigitsOf(n);
    DigitsLength(n, StepWidth);
    var pad := PadDigits(n);
    assert pad == Zeros(StepWidth - |d|) + d;
    var name := FormatStep(n);
    assert name[4..12] == pad;
    LeadingZeros(StepWidth - |d|, d);
    ParseDigitsOf(n);
  }

  /** The step field without its fixed width: everything between `step`
      and `.h5`. */
  function FullStepField(name: string): string
  {
    Slice(name, 4, |name| - 3)
  }

  /** The step parser with the field read in full; `Rotate` with this
      parser is the rotation without the nine-digit misreading. */
  function ParseFullStep(name: string): Option<int>
  {
    ParseInt(FullStepField(name))
  }

  /** Reading the whole field, every saved name reads back as its step. */
  lemma FullStepRoundTrip(n: nat)
    ensures ParseFullStep(FormatStep(n)) == Some(n)
  {
    var d := DigitsOf(n);
    var pad := PadDigits(n);
    var name := FormatStep(n);
    assert name[4..|name| - 3] == pad;
    if |d| < StepWidth {
      LeadingZeros(StepWidth - |d|, d);
    }
    ParseDigitsOf(n);
  }

  /** From step 10^8 on, `%.8d` prints nine digits and `name[4:12]` keeps
      only the first eight, so a nine-digit step reads back divided by
      ten. */
  lemma NineDigitStep(n: nat)
    requires Pow10(8) <= n < Pow10(9)
    ensures ParseStep(FormatStep(n)) == Some(n / 10)
  {
    var head := DigitsOf(n / 10);
    DigitsAtLeast(n / 10, 7);
    DigitsLength(n / 10, 8);
    assert DigitsOf(n) == head + [DigitChar(n % 10)];
    var name := FormatStep(n);
    assert name[4..12] == head;
    ParseDigitsOf(n / 10);
  }

  // ---------------------------------------------------------------------
  // Rotation
  // ---------------------------------------------------------------------

  /** The names of a listing that pass the filter, in listing order. */
  function Qualified(listing: seq<string>): (q: seq<string>)
    ensures |q| <= |listing|
    ensures forall m :: 0 <= m < |q| ==> Qualifies(q[m]) && q[m] in listing
    decreases |listing|
  {
    if listing == [] then []
    else
      var last := listing[|listing| - 1];
      Qualified(listing[..|listing| - 1]) + (if Qualifies(last) then [last] else [])
  }

  /** No qualifying name is dropped. */
  lemma {:induction false} QualifiedComplete(listing: seq<string>)
    ensures forall j :: 0 <= j < |listing| && Qualifies(listing[j]) ==> listing[j] in Qualified(listing)
    decreases |listing|
  {
    if listing != [] {
      var init := listing[..|listing| - 1];
      QualifiedComplete(init);
      forall j | 0 <= j < |listing| - 1 && Qualifies(listing[j])
        ensures listing[j] in Qualified(listing)
      {
        assert listing[j] == init[j];
      }
    }
  }

  /** The filter keeps listing order: filtering a prefix of the listing
      gives a prefix of the filtered listing. */
  lemma {:induction false} QualifiedPrefix(listing: seq<string>, k: nat)
    requires k <= |listing|
    ensures Qualified(listing[..k]) <= Qualified(listing)
    decreases |listing|
  {
    if k < |listing| {
      var init := listing[..|listing| - 1];
      assert listing[..k] == init[..k];
      QualifiedPrefix(init, k);
    } else {
      assert listing[..k] == listing;
    }
  }

  /** A listing whose every name qualifies is kept whole. */
  lemma {:induction false} QualifiedAll(listing: seq<string>)
    requires forall j :: 0 <= j < |listing| ==> Qualifies(listing[j])
    ensures Qualified(listing) == listing
    decreases |listing|
  {
    if listing != [] {
      var init := listing[..|listing| - 1];
      QualifiedAll(init);
      assert init + [listing[|listing| - 1]] == listing;
    }
  }

  /** `name` is the first qualifying entry whose step field `parse`
      rejects, so the listing loop raises on it. */
  ghost predicate FirstUnparsable(listing: seq<string>, parse: string -> Option<int>, name: string)
  {
    exists j :: 0 <= j < |listing| && listing[j] == name && Qualifies(name) && parse(name).None?
      && forall i :: 0 <= i < j && Qualifies(listing[i]) ==> parse(listing[i]).Some?
  }

  /** `name` is `names[steps.index(min(steps))]`: it has the smallest step
      of the qualifying names, and no earlier name has that step. */
  ghost predicate IsOldest(q: seq<string>, parse: string -> Option<int>, name: string)
  {
    && (forall m :: 0 <= m < |q| ==> parse(q[m]).Some?)
    && (exists i :: 0 <= i < |q| && q[i] == name
          && (forall m :: 0 <= m < |q| ==> parse(name).value <= parse(q[m]).value)
          && (forall m :: 0 <= m < i ==> parse(q[m]).value > parse(name).value))
  }

  /** `steps.index(min(steps))`: the first position of the minimum. */
  method IndexOfMin(steps: seq<int>) returns (i: nat)
    requires |steps| > 0
    ensures i < |steps|
    ensures forall m :: 0 <= m < |steps| ==> steps[i] <= steps[m]
    ensures forall m :: 0 <= m < i ==> steps[m] > steps[i]
  {
    i := 0;
    var k := 1;
    while k < |steps|
      invariant 1 <= k <= |steps| && i < k
      invariant forall m :: 0 <= m < k ==> steps[i] <= steps[m]
      invariant forall m :: 0 <= m < i ==> steps[m] > steps[i]
    {
      if steps[k] < steps[i] {
        i := k;
      }
      k := k + 1;
    }
  }

  /** Every qualifying name of the listing has a step `parse` accepts. */
  ghost predicate AllParse(listing: seq<string>, parse: string -> Option<int>)
  {
    forall j :: 0 <= j < |listing| && Qualifies(listing[j]) ==> parse(listing[j]).Some?
  }

  /** `steps` holds the parsed step of each name, position by position. */
  ghost predicate StepsOf(names: seq<string>, parse: string -> Option<int>, steps: seq<int>)
  {
    |steps| == |names| && forall m :: 0 <= m < |names| ==> parse(names[m]) == Some(steps[m])
  }

  lemma QualifiedSnoc(listing: seq<string>, k: nat)
    requires k < |listing|
    ensures Qualified(listing[..k + 1])
         == Qualified(listing[..k]) + (if Qualifies(listing[k]) then [listing[k]] else [])
  {
    assert listing[..k + 1][..k] == listing[..k];
  }

  lemma AllParseSnoc(listing: seq<string>, parse: string -> Option<int>, k: nat)
    requires k < |listing| && AllParse(listing[..k], parse)
    requires Qualifies(listing[k]) ==> parse(listing[k]).Some?
    ensures AllParse(listing[..k + 1], parse)
  {
    var longer := listing[..k + 1];
    forall j | 0 <= j < |longer| && Qualifies(longer[j])
      ensures parse(longer[j]).Some?
    {
      if j < k {
        assert longer[j] == listing[..k][j];
      }
    }
  }

  lemma StepsOfSnoc(names: seq<string>, parse: string -> Option<int>, steps: seq<int>, name: string, step: int)
    requires StepsOf(names, parse, steps) && parse(name) == Some(step)
    ensures StepsOf(names + [name], parse, steps + [step])
  {
    var longer := names + [name];
    forall m | 0 <= m < |longer|
      ensures parse(longer[m]) == Some((steps + [step])[m])
    {
      if m < |names| {
        assert longer[m] == names[m];
      }
    }
  }

  /** The loop stops at the first qualifying name `parse` rejects. */
  lemma FirstFailure(listing: seq<string>, parse: string -> Option<int>, k: nat)
    requires k < |listing| && AllParse(listing[..k], parse)
    requires Qualifies(listing[k]) && parse(listing[k]).None?
    ensures !AllParse(listing, parse)
    ensures FirstUnparsable(listing, parse, listing[k])
  {
    forall i | 0 <= i < k && Qualifies(listing[i])
      ensures parse(listing[i]).Some?
    {
      assert listing[..k][i] == listing[i];
    }
  }

  /** The listing loop: the steps of the qualifying names in listing order,
      or the first qualifying name whose step `parse` rejects. */
  method CollectSteps(listing: seq<string>, parse: string -> Option<int>) returns (r: Result<seq<int>>)
    ensures r.Failure? <==> !AllParse(listing, parse)
    ensures r.Failure? ==> FirstUnparsable(listing, parse, r.culprit)
    ensures r.Success? ==> StepsOf(Qualified(listing), parse, r.value)
  {
    var steps: seq<int> := [];
    var k := 0;
    while k < |listing|
      invariant 0 <= k <= |listing|
      invariant StepsOf(Qualified(listing[..k]), parse, steps)
      invariant AllParse(listing[..k], parse)
    {
      var name := listing[k];
      QualifiedSnoc(listing, k);
      if Qualifies(name) {
        match parse(name) {
          case None =>
            FirstFailure(listing, parse, k);
            return Failure(name);
          case Some(step) =>
            StepsOfSnoc(Qualified(listing[..k]), parse, steps, name, step);
            steps := steps + [step];
        }
      }
      AllParseSnoc(listing, parse, k);
      k := k + 1;
    }
    assert listing[..k] == listing;
    return Success(steps);
  }

  /** The first position of the smallest step holds the oldest name. */
  lemma OldestAt(names: seq<string>, parse: string -> Option<int>, steps: seq<int>, i: nat)
    requires StepsOf(names, parse, steps) && i < |steps|
    requires forall m :: 0 <= m < |steps| ==> steps[i] <= steps[m]
    requires forall m :: 0 <= m < i ==> steps[m] > steps[i]
    ensures IsOldest(names, parse, names[i])
  {
    assert forall m :: 0 <= m < |names| ==> parse(names[m]).value == steps[m];
  }

  /** One rotation over a directory listing, given the step parser
      (`ParseStep` for the source as written). It fails on the first
      qualifying name whose step does not parse; otherwise it names the
      checkpoint to delete when more than ten qualify, and nothing when at
      most ten do. */
  method Rotate(listing: seq<string>, parse: string -> Option<int>) returns (r: Result<Option<string>>)
    ensures r.Failure? <==> exists j :: 0 <= j < |listing| && Qualifies(listing[j]) && parse(listing[j]).None?
    ensures r.Failure? ==> FirstUnparsable(listing, parse, r.culprit)
    ensures r.Success? ==> (r.value.Some? <==> |Qualified(listing)| > MaxKept)
    ensures r.Success? && r.value.Some? ==> IsOldest(Qualified(listing), parse, r.value.value)
  {
    var collected := CollectSteps(listing, parse);
    match collected {
      case Failure(name) =>
        r := Failure(name);
      case Success(steps) =>
        var names := Qualified(listing);
        if |steps| > MaxKept {
          var i := IndexOfMin(steps);
          r := Success(Some(names[i]));
          OldestAt(names, parse, steps, i);
        } else {
          r := Success(None);
        }
    }
  }

  /** Two names that both satisfy `IsOldest` are the same name: the rule
      picks exactly one checkpoint. */
  lemma OldestIsUnique(q: seq<string>, parse: string -> Option<int>, x: string, y: string)
    requires IsOldest(q, parse, x) && IsOldest(q, parse, y)
    ensures x == y
  {
    var i :| 0 <= i < |q| && q[i] == x
      && (forall m :: 0 <= m < |q| ==> parse(x).value <= parse(q[m]).value)
      && (forall m :: 0 <= m < i ==> parse(q[m]).value > parse(x).value);
    var j :| 0 <= j < |q| && q[j] == y
      && (forall m :: 0 <= m < |q| ==> parse(y).value <= parse(q[m]).value)
      && (forall m :: 0 <= m < j ==> parse(q[m]).value > parse(y).value);
  }

  /** The directory after saving step n next to the checkpoints of the
      steps in `older`, in that order. */
  function SavedListing(older: seq<nat>, n: nat): (listing: seq<string>)
    ensures |listing| == |older| + 1 && listing[|older|] == FormatStep(n)
    ensures forall m :: 0 <= m < |older| ==> listing[m] == FormatStep(older[m])
  {
    seq(|older|, m requires 0 <= m < |older| => FormatStep(older[m])) + [FormatStep(n)]
  }

  /** The situation in which the fixed-width field goes wrong: a
      nine-digit step n is saved while at least ten checkpoints remain
      whose eight-digit steps lie between n / 10 and 10^8. */
  predicate NineDigitSave(older: seq<nat>, n: nat)
  {
    && Pow10(8) <= n < Pow10(9)
    && |older| >= MaxKept
    && forall m :: 0 <= m < |older| ==> n / 10 < older[m] < Pow10(8)
  }

  /** One name of that directory: it qualifies, the fixed-width field
      reads an older step as itself and step n as n / 10, and the whole
      field reads every step as itself. */
  lemma SavedName(older: seq<nat>, n: nat, j: nat)
    requires NineDigitSave(older, n) && j <= |older|
    ensures Qualifies(SavedListing(older, n)[j])
    ensures ParseStep(SavedListing(older, n)[j]) == Some(if j < |older| then older[j] else n / 10)
    ensures ParseFullStep(SavedListing(older, n)[j]) == Some(if j < |older| then older[j] else n)
  {
    var step := if j < |older| then older[j] else n;
    assert SavedListing(older, n)[j] == FormatStep(step);
    FormatStepQualifies(step);
    FullStepRoundTrip(step);
    if j < |older| {
      FormatStepRoundTrip(step);
    } else {
      NineDigitStep(step);
    }
  }

  /** Reading the whole field, every name of that directory parses as its step. */
  lemma SavedFullStep(older: seq<nat>, n: nat, j: nat)
    requires j <= |older|
    ensures ParseFullStep(SavedListing(older, n)[j]) == Some(if j < |older| then older[j] else n)
  {
    var step := if j < |older| then older[j] else n;
    assert SavedListing(older, n)[j] == FormatStep(step);
    FullStepRoundTrip(step);
  }

  /** In that situation every name qualifies and parses, so more than ten
      qualify. */
  lemma NineDigitSaveParses(older: seq<nat>, n: nat)
    requires NineDigitSave(older, n)
    ensures Qualified(SavedListing(older, n)) == SavedListing(older, n)
    ensures |Qualified(SavedListing(older, n))| > MaxKept
    ensures AllParse(SavedListing(older, n), ParseStep) && AllParse(SavedListing(older, n), ParseFullStep)
  {
    var listing := SavedListing(older, n);
    forall j | 0 <= j < |listing|
      ensures Qualifies(listing[j]) && ParseStep(listing[j]).Some? && ParseFullStep(listing[j]).Some?
    {
      SavedName(older, n, j);
    }
    QualifiedAll(listing);
  }

  /** With the fixed-width field, an older name parses as its step and
      the name just saved as n / 10. */
  lemma SavedStep(older: seq<nat>, n: nat, j: nat)
    requires NineDigitSave(older, n) && j <= |older|
    ensures ParseStep(SavedListing(older, n)[j]) == Some(if j < |older| then older[j] else n / 10)
  {
    var step := if j < |older| then older[j] else n;
    assert SavedListing(older, n)[j] == FormatStep(step);
    if j < |older| {
      FormatStepRoundTrip(step);
    } else {
      NineDigitStep(step);
    }
  }

  /** The fixed-width field makes the checkpoint just saved the oldest. */
  lemma NineDigitSaveOldest(older: seq<nat>, n: nat)
    requires NineDigitSave(older, n)
    ensures IsOldest(SavedListing(older, n), ParseStep, FormatStep(n))
  {
    var listing := SavedListing(older, n);
    forall j | 0 <= j < |listing|
      ensures ParseStep(listing[j]).Some? && ParseStep(FormatStep(n)).value <= ParseStep(listing[j]).value
      ensures j < |older| ==> ParseStep(listing[j]).value > ParseStep(FormatStep(n)).value
    {
      SavedStep(older, n, j);
      SavedStep(older, n, |older|);
    }
    assert listing[|older|] == FormatStep(n);
  }

  /** Reading the whole field, the checkpoint just saved is never the oldest. */
  lemma NineDigitSaveCorrected(older: seq<nat>, n: nat)
    requires NineDigitSave(older, n)
    ensures !IsOldest(SavedListing(older, n), ParseFullStep, FormatStep(n))
  {
    var listing := SavedListing(older, n);
    SavedName(older, n, 0);
    SavedName(older, n, |older|);
    assert ParseFullStep(listing[0]).value < ParseFullStep(FormatStep(n)).value;
  }

  /** The rotation as written, run after saving a nine-digit step beside at
      least ten eight-digit ones, deletes the checkpoint it has just saved. */
  method RotationDeletesNewest(older: seq<nat>, n: nat) returns (r: Result<Option<string>>)
    requires NineDigitSave(older, n)
    ensures r == Success(Some(FormatStep(n)))
  {
    NineDigitSaveParses(older, n);
    NineDigitSaveOldest(older, n);
    r := Rotate(SavedListing(older, n), ParseStep);
    OldestIsUnique(SavedListing(older, n), ParseStep, r.value.value, FormatStep(n));
  }

  /** Reading the whole field, the name the rotation picks in that
      directory is the checkpoint of the smallest older step. */
  lemma CorrectedOldestIsOldestStep(older: seq<nat>, n: nat, name: string)
    requires NineDigitSave(older, n)
    requires IsOldest(SavedListing(older, n), ParseFullStep, name)
    ensures name != FormatStep(n)
    ensures exists i :: (0 <= i < |older| && name == FormatStep(older[i])
                         && forall m :: 0 <= m < |older| ==> older[i] <= older[m])
  {
    NineDigitSaveCorrected(older, n);
    OldestOlderStep(older, n, name);
  }

  /** An oldest name other than the one just saved belongs to the smallest
      older step. */
  lemma OldestOlderStep(older: seq<nat>, n: nat, name: string)
    requires IsOldest(SavedListing(older, n), ParseFullStep, name)
    requires name != FormatStep(n)
    ensures exists i :: (0 <= i < |older| && name == FormatStep(older[i])
                         && forall m :: 0 <= m < |older| ==> older[i] <= older[m])
  {
    var listing := SavedListing(older, n);
    var i :| 0 <= i < |listing| && listing[i] == name
      && (forall m :: 0 <= m < |listing| ==> ParseFullStep(name).value <= ParseFullStep(listing[m]).value);
    if i == |older| {
      assert false;
    }
    SavedFullStep(older, n, i);
    forall m | 0 <= m < |older|
      ensures older[i] <= older[m]
    {
      SavedFullStep(older, n, m);
    }
  }

  /** With the whole field read, the same rotation deletes one of the older
      checkpoints and keeps the one just saved. */
  method CorrectedRotationKeepsNewest(older: seq<nat>, n: nat) returns (r: Result<Option<string>>)
    requires NineDigitSave(older, n)
    ensures r.Success? && r.value.Some?
    ensures r.value.value != FormatStep(n)
    ensures exists i :: (0 <= i < |older| && r.value.value == FormatStep(older[i])
                         && forall m :: 0 <= m < |older| ==> older[i] <= older[m])
  {
    NineDigitSaveParses(older, n);
    NineDigitSaveCorrected(older, n);
    r := Rotate(SavedListing(older, n), ParseFullStep);
    CorrectedOldestIsOldestStep(older, n, r.value.value);
  }

  /** Ten checkpoints from step 99999990 to 99999999, then step 100000000:
      the rotation as written deletes `step100000000.h5`. */
  lemma TenOlderStepsThenNineDigits()
    ensures NineDigitSave(seq(10, m => 99999990 + m), 100000000)
  {
    assert Pow10(8) == 100000000 && Pow10(9) == 1000000000;
  }
}
