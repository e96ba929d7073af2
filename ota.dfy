/** The over-the-air update client of lib/OTA/OTA.cpp: the version comparison that decides
    whether an update is available, and the branch that starts it. The HTTP requests, the
    flash writer and the restart are not modelled: the version download is a parameter and
    the firmware update is an action the client returns. */
module Ota {

  /** Arduino's String::indexOf(ch, from): the first position at or after `from` holding
      `ch`, or -1 when there is none or `from` is past the end. */
  function IndexOf(s: string, ch: char, from: nat): (r: int)
    ensures r == -1 || (from <= r < |s| && s[r] == ch)
    ensures r == -1 ==> forall j :: from <= j < |s| ==> s[j] != ch
    ensures r != -1 ==> forall j :: from <= j < r ==> s[j] != ch
    decreases |s| - from
  {
    if from >= |s| then -1
    else if s[from] == ch then from
    else IndexOf(s, ch, from + 1)
  }

  /** Arduino's String::substring(left, right): the bounds are swapped when reversed, the
      result is empty when `left` is past the end, and `right` is clamped to the length. */
  function Substring(s: string, left: nat, right: nat): (r: string)
    ensures left <= right <= |s| ==> r == s[left..right]
    ensures |r| <= |s|
  {
    if left > right then Substring(s, right, left)
    else if left >= |s| then ""
    else if right > |s| then s[left..]
    else s[left..right]
  }

  /** One pass of the do-while scan of parseVersion, started at `index`: the segment that
      ends at the next '.' (or the rest of the string), and whether the scan goes on, which
      it does only when a '.' was found and the new index is below length - 1. */
  function ScanFrom(s: string, index: nat): (word: string)
    decreases |s| - index
  {
    var next := IndexOf(s, '.', index);
    var word := if next == -1 then Substring(s, index, |s|) else Substring(s, index, next);
    if next != -1 && next + 1 < |s| - 1 then ScanFrom(s, next + 1) else word
  }

  /** The segment of a version string that parseVersion compares. */
  function SelectedSegment(s: string): (word: string)
    ensures '.' !in word
    ensures exists i, j :: 0 <= i <= j <= |s| && word == s[i..j]
  {
    ScanFromIsDotFreeSlice(s, 0);
    ScanFrom(s, 0)
  }

  predicate IsDigit(c: char)
  {
    '0' <= c <= '9'
  }

  /** The white space atol skips before a number. */
  predicate IsSpace(c: char)
  {
    c == ' ' || c == '\t' || c == '\n' || c == '\U{B}' || c == '\U{C}' || c == '\r'
  }

  /** The longest prefix of `s` made of decimal digits. */
  function LeadingDigits(s: string): (d: string)
    ensures |d| <= |s| && d == s[..|d|]
    ensures forall k :: 0 <= k < |d| ==> IsDigit(d[k])
    ensures |d| < |s| ==> !IsDigit(s[|d|])
  {
    if |s| > 0 && IsDigit(s[0]) then [s[0]] + LeadingDigits(s[1..]) else ""
  }

  /** The value of a string of decimal digits. */
  function DigitsValue(d: string): nat
  {
    if |d| == 0 then 0
    else DigitsValue(d[..|d| - 1]) * 10 + (if IsDigit(d[|d| - 1]) then d[|d| - 1] as int - '0' as int else 0)
  }

  function SkipSpace(s: string): (t: string)
    ensures |t| <= |s| && t == s[|s| - |t|..]
    ensures |t| > 0 ==> !IsSpace(t[0])
  {
    if |s| > 0 && IsSpace(s[0]) then SkipSpace(s[1..]) else s
  }

  /** Arduino's String::toInt, which is atol: leading white space, an optional sign, then the
      longest run of decimal digits; 0 when there is no number. */
  function ToInt(s: string): int
  {
    var t := SkipSpace(s);
    if |t| > 0 && t[0] == '-' then -(DigitsValue(LeadingDigits(t[1..])) as int)
    else if |t| > 0 && t[0] == '+' then DigitsValue(LeadingDigits(t[1..]))
    else DigitsValue(LeadingDigits(t))
  }

  /** The decimal digits of `n`, as String(n) prints them. */
  function Decimal(n: nat): (d: string)
    ensures |d| > 0
    ensures forall k :: 0 <= k < |d| ==> IsDigit(d[k])
  {
    if n < 10 then [('0' as int + n) as char]
    else Decimal(n / 10) + [('0' as int + n % 10) as char]
  }

  /** The decision parseVersion stores in updateAvailable. */
  predicate NewerOnServer(current: string, server: string)
  {
    ToInt(SelectedSegment(server)) > ToInt(SelectedSegment(current))
  }

  /** What performUpdate does: start the firmware update, or report an error through the
      error callback when it is set. */
  datatype UpdateAction = UpdateFirmware | ReportError(message: string) | NoAction

  const NoUpdateMessage: string := "No update available"

  /** The HTTP status of a successful version request. */
  const HttpCodeOk: int := 200

  class OtaClient {
    var versionUrl: string
    var firmwareUrl: string
    var currentVersion: string
    var serverVersion: string
    var updateAvailable: bool
    /** Whether the error callback pointer is set; the constructor installs a default one. */
    var hasErrorCallback: bool

    constructor (versionUrl: string, firmwareUrl: string, currentVersion: string)
      ensures this.versionUrl == versionUrl && this.firmwareUrl == firmwareUrl
      ensures this.currentVersion == currentVersion && serverVersion == ""
      ensures !updateAvailable && hasErrorCallback
    {
      this.versionUrl := versionUrl;
      this.firmwareUrl := firmwareUrl;
      this.currentVersion := currentVersion;
      serverVersion := "";
      updateAvailable := false;
      hasErrorCallback := true;
    }

    /** getVersion followed by parseVersion; the response of the version request is given as
        its status and body, and only a 200 response replaces the server version. */
    method CheckForUpdate(httpCode: int, payload: string)
      modifies this`serverVersion, this`updateAvailable
      ensures serverVersion == (if httpCode == HttpCodeOk then payload else old(serverVersion))
      ensures updateAvailable == NewerOnServer(currentVersion, serverVersion)
    {
      if httpCode > 0 {
        if httpCode == HttpCodeOk {
          serverVersion := payload;
        }
      }
      ParseVersion(currentVersion, serverVersion);
    }

    method PerformUpdate() returns (action: UpdateAction)
      ensures action == UpdateFirmware <==> updateAvailable
      ensures !updateAvailable ==> action == (if hasErrorCallback then ReportError(NoUpdateMessage) else NoAction)
    {
      if updateAvailable {
        action := UpdateFirmware;
      } else {
        if hasErrorCallback {
          action := ReportError(NoUpdateMessage);
        } else {
          action := NoAction;
        }
      }
    }

    function IsUpdateAvailable(): (r: bool)
      reads this
      ensures r <==> updateAvailable
    {
      updateAvailable
    }

    method SetVersionUrl(url: string)
      modifies this`versionUrl
      ensures versionUrl == url
    {
      versionUrl := url;
    }

    method SetFirmwareUrl(url: string)
      modifies this`firmwareUrl
      ensures firmwareUrl == url
    {
      firmwareUrl := url;
    }

    method SetCurrentVersion(version: string)
      modifies this`currentVersion
      ensures currentVersion == version
    {
      currentVersion := version;
    }

    /** setUpdateErrorCallback, with the callback reduced to whether it is set. */
    method SetUpdateErrorCallback(present: bool)
      modifies this`hasErrorCallback
      ensures hasErrorCallback == present
    {
      hasErrorCallback := present;
    }

    method ParseVersion(current: string, server: string)
      modifies this`updateAvailable
      ensures updateAvailable == NewerOnServer(current, server)
    {
      var currentWord := ScanVersion(current);
      var serverWord := ScanVersion(server);
      var currentNumber := ToInt(currentWord);
      var serverNumber := ToInt(serverWord);
      if serverNumber > currentNumber {
        updateAvailable := true;
      } else {
        updateAvailable := false;
      }
    }
  }

  /** The do-while loop of parseVersion over one version string. */
  method ScanVersion(s: string) returns (word: string)
    ensures word == SelectedSegment(s)
  {
    var maxIndex := |s| - 1;
    var index: int := 0;
    var next := IndexOf(s, '.', index);
    word := if next == -1 then Substring(s, index, |s|) else Substring(s, index, next);
    index := next + 1;
    while next != -1 && index < maxIndex
      invariant 0 <= index <= |s|
      invariant next != -1 && index < maxIndex ==> ScanFrom(s, 0) == ScanFrom(s, index)
      invariant !(next != -1 && index < maxIndex) ==> ScanFrom(s, 0) == word
      decreases if next == -1 then 0 else |s| + 1 - index
    {
      next := IndexOf(s, '.', index);
      word := if next == -1 then Substring(s, index, |s|) else Substring(s, index, next);
      index := next + 1;
    }
  }

  lemma {:induction false} ScanFromIsDotFreeSlice(s: string, index: nat)
    ensures '.' !in ScanFrom(s, index)
    ensures exists i, j :: 0 <= i <= j <= |s| && ScanFrom(s, index) == s[i..j]
    decreases |s| - index
  {
    var next := IndexOf(s, '.', index);
    if next != -1 && next + 1 < |s| - 1 {
      ScanFromIsDotFreeSlice(s, next + 1);
    } else if next == -1 {
      if index >= |s| {
        assert Substring(s, index, |s|) == "";
        assert ScanFrom(s, index) == s[0..0];
      } else {
        assert ScanFrom(s, index) == s[index..|s|];
      }
    } else {
      assert ScanFrom(s, index) == s[index..next];
    }
  }

  /** A version string without a '.' is compared as a whole. */
  lemma NoDotSelectsWhole(s: string)
    requires '.' !in s
    ensures SelectedSegment(s) == s
  {
    assert IndexOf(s, '.', 0) == -1;
  }

  /** The scan stops once the index reaches length - 1. */
  lemma SelectedSegmentExamples()
    ensures SelectedSegment("1.0") == "1"
    ensures SelectedSegment("1.10") == "10"
    ensures SelectedSegment("0.3.0.0") == "0"
    ensures SelectedSegment("1.2.3") == "2"
  {
    assert IndexOf("1.0", '.', 0) == 1;
    assert IndexOf("1.10", '.', 0) == 1;
    assert IndexOf("1.10", '.', 2) == -1;
    assert ScanFrom("1.10", 2) == "10";
    var v := "0.3.0.0";
    assert IndexOf(v, '.', 0) == 1;
    assert IndexOf(v, '.', 2) == 3;
    assert IndexOf(v, '.', 4) == 5;
    assert ScanFrom(v, 4) == "0";
    assert ScanFrom(v, 2) == "0";
    var w := "1.2.3";
    assert IndexOf(w, '.', 0) == 1;
    assert IndexOf(w, '.', 2) == 3;
    assert ScanFrom(w, 2) == "2";
  }

  /** toInt reads back the digits String(n) prints. */
  lemma {:induction false} DecimalValue(n: nat)
    ensures DigitsValue(Decimal(n)) == n
  {
    if n >= 10 {
      DecimalValue(n / 10);
      var d := Decimal(n);
      assert d[..|d| - 1] == Decimal(n / 10);
    }
  }

  lemma {:induction false} AllDigitsLead(d: string)
    requires forall k :: 0 <= k < |d| ==> IsDigit(d[k])
    ensures LeadingDigits(d) == d
  {
    if |d| > 0 {
      AllDigitsLead(d[1..]);
    }
  }

  lemma ToIntDecimal(n: nat)
    ensures ToInt(Decimal(n)) == n
  {
    var d := Decimal(n);
    assert IsDigit(d[0]) && !IsSpace(d[0]);
    assert SkipSpace(d) == d;
    AllDigitsLead(d);
    DecimalValue(n);
    assert ToInt(d) == DigitsValue(LeadingDigits(d));
  }

  /** A string with no number in front reads as 0. */
  lemma ToIntWithoutDigits(s: string)
    requires |s| == 0 || !(IsDigit(s[0]) || IsSpace(s[0]) || s[0] == '-' || s[0] == '+')
    ensures ToInt(s) == 0
  {
  }

  /** Identical version strings never report an update, and at most one of two versions is
      newer than the other. */
  lemma NewerOnServerIsStrict(a: string, b: string)
    ensures !NewerOnServer(a, a)
    ensures NewerOnServer(a, b) ==> !NewerOnServer(b, a)
  {
  }

  /** A one-character final segment is skipped: "1.5" and "1.6" both compare "1", so the
      newer server version goes undetected. */
  lemma OneCharMinorSkipped()
    ensures SelectedSegment("1.5") == "1" && SelectedSegment("1.6") == "1"
    ensures !NewerOnServer("1.5", "1.6")
  {
    OneCharMinorSegment("1.5");
    OneCharMinorSegment("1.6");
    assert Decimal(1) == "1";
    ToIntDecimal(1);
  }

  lemma OneCharMinorSegment(v: string)
    requires |v| == 3 && v[1] == '.' && v[0] != '.'
    ensures SelectedSegment(v) == v[..1]
  {
    assert IndexOf(v, '.', 0) == 1;
  }

  /** The segment after the last '.', which the scan evidently means to compare. */
  function LastSegment(s: string): (word: string)
    ensures '.' !in word
    ensures |word| <= |s| && word == s[|s| - |word|..]
    ensures |word| < |s| ==> s[|s| - |word| - 1] == '.'
  {
    if |s| == 0 || s[|s| - 1] == '.' then ""
    else LastSegment(s[..|s| - 1]) + [s[|s| - 1]]
  }

  /** The comparison on last segments. */
  predicate NewerLastSegment(current: string, server: string)
  {
    ToInt(LastSegment(server)) > ToInt(LastSegment(current))
  }

  /** With the last segment compared, a higher one-digit minor version is detected. */
  lemma LastSegmentDetectsMinor(major: string, a: nat, b: nat)
    requires a < b
    ensures NewerLastSegment(major + "." + Decimal(a), major + "." + Decimal(b))
  {
    LastSegmentOfDotted(major, Decimal(a));
    LastSegmentOfDotted(major, Decimal(b));
    ToIntDecimal(a);
    ToIntDecimal(b);
  }

  lemma {:induction false} LastSegmentOfDotted(prefix: string, tail: string)
    requires '.' !in tail
    ensures LastSegment(prefix + "." + tail) == tail
    decreases |tail|
  {
    var s := prefix + "." + tail;
    if |tail| == 0 {
      assert s[|s| - 1] == '.';
    } else {
      assert s[..|s| - 1] == prefix + "." + tail[..|tail| - 1];
      assert tail[|tail| - 1] in tail;
      LastSegmentOfDotted(prefix, tail[..|tail| - 1]);
      assert tail == tail[..|tail| - 1] + [tail[|tail| - 1]];
    }
  }
}
