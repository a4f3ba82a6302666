/** GLFW error handling: the fixed table of error codes and their names, the
    one-slot mailbox that holds the last reported error, and the decision
    procedure that turns a pending error into a returned error, nothing, or
    a panic. */
module GlfwError {
  import opened Base

  /** An error code (a Go `int`). */
  type ErrorCode = int

  // The internal error codes, in table order.
  const notInitialized: ErrorCode := 0x00010001
  const noCurrentContext: ErrorCode := 0x00010002
  const invalidEnum: ErrorCode := 0x00010003
  const invalidValue: ErrorCode := 0x00010004
  const outOfMemory: ErrorCode := 0x00010005
  const apiUnavailable: ErrorCode := 0x00010006
  const versionUnavailable: ErrorCode := 0x00010007
  const platformError: ErrorCode := 0x00010008
  const formatUnavailable: ErrorCode := 0x00010009
  const noWindowContext: ErrorCode := 0x0001000A
  const cursorUnavailable: ErrorCode := 0x0001000B
  const featureUnavailable: ErrorCode := 0x0001000C
  const featureUnimplemented: ErrorCode := 0x0001000D
  const platformUnavailable: ErrorCode := 0x0001000E

  // The exported aliases.
  const APIUnavailable: ErrorCode := apiUnavailable
  const VersionUnavailable: ErrorCode := versionUnavailable
  const FormatUnavailable: ErrorCode := formatUnavailable

  /** The named codes, and below their names, position by position. */
  const Codes: seq<ErrorCode> := [
    notInitialized, noCurrentContext, invalidEnum, invalidValue, outOfMemory,
    apiUnavailable, versionUnavailable, platformError, formatUnavailable, noWindowContext,
    cursorUnavailable, featureUnavailable, featureUnimplemented, platformUnavailable]

  const Names: seq<string> := [
    "NotInitialized", "NoCurrentContext", "InvalidEnum", "InvalidValue", "OutOfMemory",
    "APIUnavailable", "VersionUnavailable", "PlatformError", "FormatUnavailable", "NoWindowContext",
    "CursorUnavailable", "FeatureUnavailable", "FeatureUnimplemented", "PlatformUnavailable"]

  /** The codes are fourteen consecutive values from 0x00010001 on, hence
      pairwise distinct. */
  lemma CodeTable()
    ensures |Codes| == 14
    ensures forall i :: 0 <= i < |Codes| ==> Codes[i] == 0x00010001 + i
    ensures forall i, j :: 0 <= i < j < |Codes| ==> Codes[i] != Codes[j]
  {
  }

  /** Each exported alias is its internal code. */
  lemma Aliases()
    ensures APIUnavailable == apiUnavailable && APIUnavailable == Codes[5]
    ensures VersionUnavailable == versionUnavailable && VersionUnavailable == Codes[6]
    ensures FormatUnavailable == formatUnavailable && FormatUnavailable == Codes[8]
  {
  }

  // ---------------------------------------------------------------------
  // Decimal rendering (Go's %d)

  function DigitChar(d: nat): (ch: char)
    requires d < 10
  {
    ('0' as int + d) as char
  }

  function DigitValue(ch: char): nat
  {
    if '0' <= ch <= '9' then ch as int - '0' as int else 0
  }

  /** The decimal digits of `n`, most significant first, without leading zeros. */
  function NatDecimal(n: nat): (s: string)
    ensures |s| > 0
    ensures forall i :: 0 <= i < |s| ==> '0' <= s[i] <= '9'
    decreases n
  {
    if n < 10 then [DigitChar(n)] else NatDecimal(n / 10) + [DigitChar(n % 10)]
  }

  /** `n` in decimal, with a leading '-' when negative. */
  function Decimal(n: int): (s: string)
    ensures |s| > 0
    ensures forall i :: 0 <= i < |s| ==> s[i] == '-' || '0' <= s[i] <= '9'
  {
    if n < 0 then "-" + NatDecimal(-n) else NatDecimal(n)
  }

  /** Reads a string of decimal digits. */
  function ParseNat(s: string): nat
    decreases |s|
  {
    if s == [] then 0 else ParseNat(s[..|s| - 1]) * 10 + DigitValue(s[|s| - 1])
  }

  /** Reads an optionally negative decimal number. */
  function ParseDecimal(s: string): int
  {
    if |s| > 0 && s[0] == '-' then 0 - ParseNat(s[1..]) as int else ParseNat(s)
  }

  lemma {:induction false} ParseNatDecimal(n: nat)
    ensures ParseNat(NatDecimal(n)) == n
    decreases n
  {
    var s := NatDecimal(n);
    if n >= 10 {
      ParseNatDecimal(n / 10);
      assert s[..|s| - 1] == NatDecimal(n / 10);
    }
  }

  /** Decimal rendering loses nothing: parsing it gives the number back. */
  lemma DecimalRoundTrip(n: int)
    ensures ParseDecimal(Decimal(n)) == n
  {
    if n < 0 {
      ParseNatDecimal(-n);
      assert Decimal(n)[1..] == NatDecimal(-n);
    } else {
      ParseNatDecimal(n);
    }
  }

  // ---------------------------------------------------------------------
  // Names

  /** The name of a code: its fixed name for the fourteen named codes,
      `ErrorCode(<decimal>)` for any other value. */
  function CodeString(e: ErrorCode): (s: string)
    ensures forall i :: 0 <= i < |Codes| && e == Codes[i] ==> s == Names[i]
    ensures e !in Codes ==> s == "ErrorCode(" + Decimal(e) + ")"
  {
    if e == notInitialized then "NotInitialized"
    else if e == noCurrentContext then "NoCurrentContext"
    else if e == invalidEnum then "InvalidEnum"
    else if e == invalidValue then "InvalidValue"
    else if e == outOfMemory then "OutOfMemory"
    else if e == APIUnavailable then "APIUnavailable"
    else if e == VersionUnavailable then "VersionUnavailable"
    else if e == platformError then "PlatformError"
    else if e == FormatUnavailable then "FormatUnavailable"
    else if e == noWindowContext then "NoWindowContext"
    else if e == cursorUnavailable then "CursorUnavailable"
    else if e == featureUnavailable then "FeatureUnavailable"
    else if e == featureUnimplemented then "FeatureUnimplemented"
    else if e == platformUnavailable then "PlatformUnavailable"
    else "ErrorCode(" + Decimal(e) + ")"
  }

  /** No name contains a colon. */
  lemma CodeStringHasNoColon(e: ErrorCode)
    ensures forall i :: 0 <= i < |CodeString(e)| ==> CodeString(e)[i] != ':'
  {
    var s := CodeString(e);
    if e in Codes {
      NamesHaveNoColon();
      var k :| 0 <= k < |Codes| && Codes[k] == e;
      assert s == Names[k];
    } else {
      var digits := Decimal(e);
      assert s == "ErrorCode(" + digits + ")";
      forall i | 0 <= i < |s|
        ensures s[i] != ':'
      {
        if 10 <= i < |s| - 1 {
          assert s[i] == digits[i - 10];
        }
      }
    }
  }

  /** No fixed name contains a colon. */
  lemma NamesHaveNoColon()
    ensures forall k, i :: 0 <= k < |Names| && 0 <= i < |Names[k]| ==> Names[k][i] != ':'
  {
    forall k | 0 <= k < |Names|
      ensures forall i :: 0 <= i < |Names[k]| ==> Names[k][i] != ':'
    {
    }
  }

  /** Reads a code back from its name. */
  function CodeOf(name: string): Option<ErrorCode>
  {
    if name == "NotInitialized" then Some(notInitialized)
    else if name == "NoCurrentContext" then Some(noCurrentContext)
    else if name == "InvalidEnum" then Some(invalidEnum)
    else if name == "InvalidValue" then Some(invalidValue)
    else if name == "OutOfMemory" then Some(outOfMemory)
    else if name == "APIUnavailable" then Some(APIUnavailable)
    else if name == "VersionUnavailable" then Some(VersionUnavailable)
    else if name == "PlatformError" then Some(platformError)
    else if name == "FormatUnavailable" then Some(FormatUnavailable)
    else if name == "NoWindowContext" then Some(noWindowContext)
    else if name == "CursorUnavailable" then Some(cursorUnavailable)
    else if name == "FeatureUnavailable" then Some(featureUnavailable)
    else if name == "FeatureUnimplemented" then Some(featureUnimplemented)
    else if name == "PlatformUnavailable" then Some(platformUnavailable)
    else if |name| >= 11 && name[..10] == "ErrorCode(" && name[|name| - 1] == ')' then
      Some(ParseDecimal(name[10..|name| - 1]))
    else None
  }

  /** A name of the form `ErrorCode(<decimal>)` reads back as its number. */
  lemma FallbackRoundTrip(e: ErrorCode)
    ensures CodeOf("ErrorCode(" + Decimal(e) + ")") == Some(e)
  {
    var s := "ErrorCode(" + Decimal(e) + ")";
    assert s[0] == 'E';
    assert s[..10] == "ErrorCode(";
    assert s[10..|s| - 1] == Decimal(e);
    DecimalRoundTrip(e);
  }

  /** Every fixed name reads back as its code. */
  lemma NamedRoundTrip()
    ensures forall i :: 0 <= i < |Codes| ==> CodeOf(Names[i]) == Some(Codes[i])
  {
  }

  /** Every name reads back as the code it names. */
  lemma CodeStringRoundTrip(e: ErrorCode)
    ensures CodeOf(CodeString(e)) == Some(e)
  {
    if e in Codes {
      NamedRoundTrip();
    } else {
      FallbackRoundTrip(e);
    }
  }

  /** Distinct codes get distinct names. */
  lemma CodeStringInjective(a: ErrorCode, b: ErrorCode)
    requires CodeString(a) == CodeString(b)
    ensures a == b
  {
    CodeStringRoundTrip(a);
    CodeStringRoundTrip(b);
  }

  // ---------------------------------------------------------------------
  // Errors and the mailbox

  /** An error: its code and description. */
  datatype Error = Error(code: ErrorCode, desc: string)

  /** The text of an error: the code's name, a colon, a space, the
      description. */
  function ErrorMessage(e: Error): (s: string)
    ensures |s| == |CodeString(e.code)| + 2 + |e.desc|
    ensures s[..|CodeString(e.code)|] == CodeString(e.code)
    ensures s[|CodeString(e.code)|..|CodeString(e.code)| + 2] == ": "
    ensures s[|CodeString(e.code)| + 2..] == e.desc
  {
    CodeString(e.code) + ": " + e.desc
  }

  /** The first colon of a message is the one right after the code's name. */
  lemma FirstColon(e: Error)
    ensures forall i :: 0 <= i < |CodeString(e.code)| ==> ErrorMessage(e)[i] != ':'
    ensures ErrorMessage(e)[|CodeString(e.code)|] == ':'
  {
    CodeStringHasNoColon(e.code);
  }

  /** The message determines the error: its first colon ends the code's name. */
  lemma ErrorMessageInjective(a: Error, b: Error)
    requires ErrorMessage(a) == ErrorMessage(b)
    ensures a == b
  {
    var na, nb := CodeString(a.code), CodeString(b.code);
    var s := ErrorMessage(a);
    FirstColon(a);
    FirstColon(b);
    if |na| != |nb| {
      assert false;
    }
    assert na == s[..|na|] == nb;
    CodeStringInjective(a.code, b.code);
  }

  /** The result of taking from the mailbox: the error taken, if any, and the
      slot afterwards. */
  datatype Fetched = Fetched(err: Option<Error>, slot: Option<Error>)

  /** Takes the pending error without waiting: nothing when the slot is empty;
      otherwise the stored error, leaving the slot empty. */
  function FetchError(slot: Option<Error>): (r: Fetched)
    ensures r.slot == None
    ensures r.err == slot
  {
    match slot
    case Some(err) => Fetched(Some(err), None)
    case None => Fetched(None, None)
  }

  /** A second fetch finds nothing: an error is handed out at most once. */
  lemma FetchConsumes(slot: Option<Error>)
    ensures FetchError(FetchError(slot).slot).err == None
  {
  }

  /** Whether `code` occurs among `codes`, scanning from the front. */
  function Accepts(codes: seq<ErrorCode>, code: ErrorCode): (b: bool)
    ensures b <==> code in codes
    decreases |codes|
  {
    if codes == [] then false
    else if codes[0] == code then true
    else Accepts(codes[1..], code)
  }

  /** What `acceptError` does with a pending error. */
  datatype Accepted = Returned(err: Option<Error>) | Panicked(cause: Error)

  datatype AcceptResult = AcceptResult(outcome: Accepted, slot: Option<Error>)

  /** Takes the pending error and decides: return it when the caller accepts
      its code; otherwise drop a platform error, and panic on anything else,
      programmer error or not. */
  function AcceptError(slot: Option<Error>, codes: seq<ErrorCode>): (r: AcceptResult)
    ensures r.slot == None
    ensures r.outcome == Returned(None) <==>
      slot.None? || (slot.value.code !in codes && slot.value.code == platformError)
    ensures r.outcome.Returned? && r.outcome.err.Some? <==> slot.Some? && slot.value.code in codes
    ensures r.outcome.Panicked? <==>
      slot.Some? && slot.value.code !in codes && slot.value.code != platformError
    ensures r.outcome.Returned? && r.outcome.err.Some? ==> r.outcome.err == slot
    ensures r.outcome.Panicked? ==> r.outcome.cause == slot.value
  {
    var f := FetchError(slot);
    match f.err
    case None => AcceptResult(Returned(None), f.slot)
    case Some(err) =>
      if Accepts(codes, err.code) then AcceptResult(Returned(Some(err)), f.slot)
      else if err.code == platformError then AcceptResult(Returned(None), f.slot)
      // programmer errors and all other codes alike: they differ only in the
      // diagnostics written before the panic
      else AcceptResult(Panicked(err), f.slot)
  }

  /** Accepting no codes never returns an error: the pending error is either
      a dropped platform error or a panic. */
  lemma AcceptNothingReturnsNoError(slot: Option<Error>)
    ensures AcceptError(slot, []).outcome != Returned(None) ==> AcceptError(slot, []).outcome.Panicked?
  {
  }

  datatype PanicResult = PanicResult(panicked: Option<Error>, slot: Option<Error>)

  /** Expects no error: panics with the pending error unless the slot is empty
      or holds a platform error. */
  function PanicError(slot: Option<Error>): (r: PanicResult)
    ensures r.slot == None
    ensures r.panicked.Some? <==> slot.Some? && slot.value.code != platformError
    ensures r.panicked.Some? ==> r.panicked == slot
  {
    var a := AcceptError(slot, []);
    match a.outcome
    case Panicked(err) => PanicResult(Some(err), a.slot)
    case Returned(None) => PanicResult(None, a.slot)
    // a returned error would panic as well; AcceptNothingReturnsNoError
    // shows this case never arises
    case Returned(Some(err)) => PanicResult(Some(err), a.slot)
  }
}
