/** State execution ids and the text they are printed to and parsed from. */
module StateExecutionIds {
  import opened Wrappers

  /** The sequence is an int32 in the program; `IsInt32` says so where it matters. */
  datatype StateExecutionId = StateExecutionId(stateId: string, sequence: int)

  const MIN_INT32 := -0x8000_0000
  const MAX_INT32 := 0x7FFF_FFFF

  predicate IsInt32(n: int) {
    MIN_INT32 <= n <= MAX_INT32
  }

  // ---------- decimal text ----------

  function Digit(d: nat): char
    requires d < 10
  {
    ('0' as int + d) as char
  }

  function FormatNat(n: nat): (s: string)
    ensures s != [] && '-' !in s && s[0] != '+'
  {
    if n < 10 then [Digit(n)] else FormatNat(n / 10) + [Digit(n % 10)]
  }

  function FormatInt(n: int): string {
    if n < 0 then "-" + FormatNat(-n) else FormatNat(n)
  }

  function ParseNat(s: string): Option<nat> {
    if s == [] then None
    else
      var last := s[|s| - 1];
      if !('0' <= last <= '9') then None
      else if |s| == 1 then Some(last as int - '0' as int)
      else
        var front :- ParseNat(s[..|s| - 1]);
        Some(10 * front + (last as int - '0' as int))
  }

  /** `strconv.ParseInt(s, 10, 32)`: an optional sign, at least one digit, and a value in range. */
  function ParseInt32(s: string): Option<int> {
    if s == [] then None
    else
      var signed := s[0] == '-' || s[0] == '+';
      var magnitude :- ParseNat(if signed then s[1..] else s);
      var value: int := magnitude;
      var n := if s[0] == '-' then -value else value;
      if IsInt32(n) then Some(n) else None
  }

  // ---------- printing and parsing ----------

  function Print(id: StateExecutionId): string {
    id.stateId + "-" + FormatInt(id.sequence)
  }

  /** `strings.LastIndex(s, "-")` */
  function LastHyphen(s: string): (i: int)
    ensures -1 <= i < |s|
    ensures 0 <= i ==> s[i] == '-'
    ensures forall j :: i < j < |s| ==> s[j] != '-'
  {
    if s == [] then -1
    else if s[|s| - 1] == '-' then |s| - 1
    else LastHyphen(s[..|s| - 1])
  }

  function Parse(s: string): Option<StateExecutionId> {
    var i := LastHyphen(s);
    if i == -1 then None
    else
      var sequence :- ParseInt32(s[i + 1..]);
      Some(StateExecutionId(s[..i], sequence))
  }

  // ---------- the printed form ----------

  /** What a text of decimal digits stands for. */
  function Numeral(s: string): int {
    if s == [] then 0 else 10 * Numeral(s[..|s| - 1]) + (s[|s| - 1] as int - '0' as int)
  }

  /** The decimal digits of `n`, without leading zeros. */
  ghost predicate IsDecimal(s: string, n: nat) {
    && s != [] && (forall c :: c in s ==> '0' <= c <= '9') && (s[0] == '0' ==> |s| == 1)
    && Numeral(s) == n
  }

  lemma {:induction false} FormatNatIsDecimal(n: nat)
    ensures IsDecimal(FormatNat(n), n)
    ensures 0 < n ==> FormatNat(n)[0] != '0'
  {
    if n >= 10 {
      FormatNatIsDecimal(n / 10);
      assert FormatNat(n) == FormatNat(n / 10) + [Digit(n % 10)];
      assert FormatNat(n)[..|FormatNat(n)| - 1] == FormatNat(n / 10);
    }
  }

  /** Printed as the state id, a hyphen and the sequence, with its sign. */
  ghost predicate PrintedWith(id: StateExecutionId, s: string, digits: string) {
    && IsDecimal(digits, if id.sequence < 0 then -id.sequence else id.sequence)
    && s == id.stateId + (if id.sequence < 0 then "--" else "-") + digits
  }

  /** An id is printed as its state id, a hyphen and its sequence in decimal. */
  lemma PrintedForm(id: StateExecutionId)
    ensures exists digits :: PrintedWith(id, Print(id), digits)
  {
    var magnitude: nat := if id.sequence < 0 then -id.sequence else id.sequence;
    FormatNatIsDecimal(magnitude);
    assert PrintedWith(id, Print(id), FormatNat(magnitude));
  }

  // ---------- the round trip ----------

  lemma {:induction false} ParseFormatNat(n: nat)
    ensures ParseNat(FormatNat(n)) == Some(n)
  {
    if n >= 10 {
      ParseFormatNat(n / 10);
      var s := FormatNat(n);
      assert s[..|s| - 1] == FormatNat(n / 10);
    }
  }

  /** The text after the last hyphen is the sequence without its sign, so what comes back is known exactly. */
  lemma ParsePrint(id: StateExecutionId)
    requires IsInt32(id.sequence)
    ensures 0 <= id.sequence ==> Parse(Print(id)) == Some(id)
    ensures MIN_INT32 < id.sequence < 0 ==>
              Parse(Print(id)) == Some(StateExecutionId(id.stateId + "-", -id.sequence))
    ensures id.sequence == MIN_INT32 ==> Parse(Print(id)) == None
  {
    var magnitude: nat := if id.sequence < 0 then -id.sequence else id.sequence;
    var front := if id.sequence < 0 then id.stateId + "-" else id.stateId;
    var digits := FormatNat(magnitude);
    var s := Print(id);
    assert s == front + "-" + digits;
    assert s[|front|] == '-';
    assert forall j :: |front| < j < |s| ==> s[j] == digits[j - |front| - 1];
    assert LastHyphen(s) == |front|;
    assert s[..|front|] == front;
    assert s[|front| + 1..] == digits;
    ParseFormatNat(magnitude);
    assert digits[0] != '-' && digits[0] != '+';
  }

  /** Parsing the printed form gives the id back exactly when its sequence is not negative. */
  lemma RoundTripIffNonNegative(id: StateExecutionId)
    requires IsInt32(id.sequence)
    ensures Parse(Print(id)) == Some(id) <==> 0 <= id.sequence
  {
    ParsePrint(id);
  }

  /** Two state executions never share a key in the commands map. */
  lemma PrintIsInjective(a: StateExecutionId, b: StateExecutionId)
    requires 0 <= a.sequence <= MAX_INT32 && 0 <= b.sequence <= MAX_INT32
    requires Print(a) == Print(b)
    ensures a == b
  {
    RoundTripIffNonNegative(a);
    RoundTripIffNonNegative(b);
  }
}
