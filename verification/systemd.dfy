/** Recognising the application behind a systemd unit (src/systemd.rs):
    units started by COSMIC or Flatpak are named
    `app-cosmic-<app id>-<pid>.scope` or `app-flatpak-<app id>-<pid>.scope`. */
module Systemd {
  import opened Wrappers

  const COSMIC_SCOPE: string := "app-cosmic-"
  const FLATPAK_SCOPE: string := "app-flatpak-"
  const SCOPE_SUFFIX: string := ".scope"

  /** `strip_prefix`. */
  function StripPrefix(s: string, prefix: string): (r: Option<string>)
    ensures r.Some? <==> prefix <= s
    ensures r.Some? ==> s == prefix + r.value
  {
    if prefix <= s then Some(s[|prefix|..]) else None
  }

  /** `strip_suffix`. */
  function StripSuffix(s: string, suffix: string): (r: Option<string>)
    ensures r.Some? <==> |suffix| <= |s| && s[|s| - |suffix|..] == suffix
    ensures r.Some? ==> s == r.value + suffix
  {
    if |suffix| <= |s| && s[|s| - |suffix|..] == suffix then Some(s[..|s| - |suffix|]) else None
  }

  /** `rsplit_once`: the text before and after the last `c`. */
  function RSplitOnce(s: string, c: char): (r: Option<(string, string)>)
    ensures r.None? <==> c !in s
    ensures r.Some? ==> s == r.value.0 + [c] + r.value.1 && c !in r.value.1
  {
    if s == [] then None
    else
      var init := s[..|s| - 1];
      assert s == init + [s[|s| - 1]];
      if s[|s| - 1] == c then Some((init, []))
      else match RSplitOnce(init, c)
        case None => None
        case Some((a, b)) => Some((a, b + [s[|s| - 1]]))
  }

  predicate IsDigit(ch: char)
  {
    '0' <= ch <= '9'
  }

  function DigitValue(ch: char): nat
    requires IsDigit(ch)
  {
    (ch as int - '0' as int) as nat
  }

  /** The number a string of decimal digits denotes. */
  function DigitsValue(s: string): nat
    requires forall i | 0 <= i < |s| :: IsDigit(s[i])
  {
    if s == [] then 0 else DigitsValue(s[..|s| - 1]) * 10 + DigitValue(s[|s| - 1])
  }

  const U32_LIMIT: nat := 0x1_0000_0000

  /** `str::parse::<u32>`: an optional `+`, then at least one decimal digit,
      denoting a value below 2^32. */
  function ParseU32(s: string): (r: Option<nat>)
    ensures r.Some? ==> r.value < U32_LIMIT
    ensures r.Some? ==> s != [] && '-' !in s
  {
    var digits := if s != [] && s[0] == '+' then s[1..] else s;
    if digits == [] || exists i | 0 <= i < |digits| :: !IsDigit(digits[i]) then None
    else if DigitsValue(digits) < U32_LIMIT then Some(DigitsValue(digits))
    else None
  }

  /** The name without its COSMIC prefix, else without its Flatpak prefix. */
  function ScopeRest(name: string): (r: Option<string>)
    ensures r.None? <==> !(COSMIC_SCOPE <= name) && !(FLATPAK_SCOPE <= name)
    ensures r.Some? ==> name == COSMIC_SCOPE + r.value || name == FLATPAK_SCOPE + r.value
  {
    if StripPrefix(name, COSMIC_SCOPE).Some? then StripPrefix(name, COSMIC_SCOPE)
    else StripPrefix(name, FLATPAK_SCOPE)
  }

  /** `Unit::cosmic_flatpak_name`: the app id of a COSMIC or Flatpak scope;
      the split is at the last `-`, so the app id may itself hold `-`. */
  function CosmicFlatpakName(name: string): (r: Option<string>)
    ensures !(COSMIC_SCOPE <= name) && !(FLATPAK_SCOPE <= name) ==> r.None?
    ensures r.Some? ==> exists pid: string ::
      (name == COSMIC_SCOPE + r.value + "-" + pid + SCOPE_SUFFIX
       || name == FLATPAK_SCOPE + r.value + "-" + pid + SCOPE_SUFFIX)
      && ParseU32(pid).Some?
  {
    var rest := ScopeRest(name);
    if rest.None? then None
    else match RSplitOnce(rest.value, '-')
      case None => None
      case Some((appId, pidScope)) =>
        var pid := StripSuffix(pidScope, SCOPE_SUFFIX);
        if pid.None? || ParseU32(pid.value).None? then None
        else
          ScopeNameParts(name, rest.value, appId, pidScope, pid.value);
          Some(appId)
  }

  /** Putting the pieces of a split scope name back together. */
  lemma ScopeNameParts(name: string, rest: string, appId: string, pidScope: string, pid: string)
    requires name == COSMIC_SCOPE + rest || name == FLATPAK_SCOPE + rest
    requires rest == appId + ['-'] + pidScope && pidScope == pid + SCOPE_SUFFIX
    ensures name == COSMIC_SCOPE + appId + "-" + pid + SCOPE_SUFFIX
         || name == FLATPAK_SCOPE + appId + "-" + pid + SCOPE_SUFFIX
  {
    assert rest == appId + "-" + pid + SCOPE_SUFFIX;
  }

  // ---------------------------------------------------------------------
  // Round trip

  function DigitChar(d: nat): (ch: char)
    requires d < 10
    ensures IsDigit(ch) && DigitValue(ch) == d
  {
    ('0' as int + d) as char
  }

  /** The decimal representation of `n`. */
  function Decimal(n: nat): (s: string)
    ensures s != [] && forall i | 0 <= i < |s| :: IsDigit(s[i])
  {
    if n < 10 then [DigitChar(n)] else Decimal(n / 10) + [DigitChar(n % 10)]
  }

  lemma {:induction false} DecimalValue(n: nat)
    ensures DigitsValue(Decimal(n)) == n
  {
    if n >= 10 {
      DecimalValue(n / 10);
      var s := Decimal(n);
      assert s[..|s| - 1] == Decimal(n / 10);
    }
  }

  /** Every u32 printed in decimal parses back. */
  lemma ParseDecimal(n: nat)
    requires n < U32_LIMIT
    ensures ParseU32(Decimal(n)) == Some(n)
  {
    DecimalValue(n);
  }

  /** Either prefix is stripped from a name that starts with it. */
  lemma ScopeRestOfPrefixed(prefix: string, rest: string)
    requires prefix == COSMIC_SCOPE || prefix == FLATPAK_SCOPE
    ensures ScopeRest(prefix + rest) == Some(rest)
  {
    var name := prefix + rest;
    assert name[..|prefix|] == prefix;
    if prefix == FLATPAK_SCOPE {
      assert name[4] == 'f' && COSMIC_SCOPE[4] == 'c';
      assert !(COSMIC_SCOPE <= name);
    }
  }

  /** The text after an app id's `-`: digits and ".scope", without `-`. */
  lemma NoDashInPidScope(pid: nat)
    ensures '-' !in Decimal(pid) + SCOPE_SUFFIX
  {
    var tail := Decimal(pid) + SCOPE_SUFFIX;
    forall i | 0 <= i < |tail| ensures tail[i] != '-' {
      if i < |Decimal(pid)| {
        assert IsDigit(Decimal(pid)[i]);
      } else {
        assert tail[i] == SCOPE_SUFFIX[i - |Decimal(pid)|];
      }
    }
  }

  /** Splitting at the last `-` finds the one before a dash-free tail. */
  lemma {:induction false} RSplitLast(a: string, b: string)
    requires '-' !in b
    ensures RSplitOnce(a + "-" + b, '-') == Some((a, b))
  {
    var s := a + "-" + b;
    if b == [] {
      assert s[..|s| - 1] == a;
    } else {
      var b' := b[..|b| - 1];
      assert b == b' + [b[|b| - 1]];
      RSplitLast(a, b');
      assert s[..|s| - 1] == a + "-" + b';
    }
  }

  /** A scope name built from any app id and any u32 pid yields that app
      id, under either prefix. */
  lemma ScopeNameRoundTrip(prefix: string, appId: string, pid: nat)
    requires prefix == COSMIC_SCOPE || prefix == FLATPAK_SCOPE
    requires pid < U32_LIMIT
    ensures CosmicFlatpakName(prefix + appId + "-" + Decimal(pid) + SCOPE_SUFFIX) == Some(appId)
  {
    var tail := Decimal(pid) + SCOPE_SUFFIX;
    var rest := appId + "-" + tail;
    assert prefix + appId + "-" + Decimal(pid) + SCOPE_SUFFIX == prefix + rest;
    ScopeRestOfPrefixed(prefix, rest);
    NoDashInPidScope(pid);
    RSplitLast(appId, tail);
    assert StripSuffix(tail, SCOPE_SUFFIX) == Some(Decimal(pid));
    ParseDecimal(pid);
    assert ScopeRest(prefix + rest) == Some(rest) && RSplitOnce(rest, '-') == Some((appId, tail));
  }

  // ---------------------------------------------------------------------
  // The unit tests, as lemmas

  const APP_ID: string := "com.system76.CosmicFiles"

  /** A bare app id is not a COSMIC or Flatpak scope. */
  lemma AppIdWithoutScopeFails()
    ensures CosmicFlatpakName(APP_ID).None?
  {
    assert APP_ID[0] == 'c';
  }

  lemma DecimalOf1234()
    ensures Decimal(1234) == "1234"
  {
    assert DigitChar(1) == '1' && DigitChar(2) == '2' && DigitChar(3) == '3' && DigitChar(4) == '4';
    assert Decimal(1) == "1";
    assert Decimal(12) == Decimal(1) + "2";
    assert Decimal(123) == Decimal(12) + "3";
    assert Decimal(1234) == Decimal(123) + "4";
  }

  /** The pid part of the test name is 1234 printed in decimal. */
  lemma PidTail1234()
    ensures "-1234.scope" == "-" + Decimal(1234) + SCOPE_SUFFIX
  {
    DecimalOf1234();
  }

  /** Regrouping a scope name around its tail. */
  lemma RegroupTail(prefix: string, appId: string, pid: string, tail: string)
    requires tail == "-" + pid + SCOPE_SUFFIX
    ensures prefix + appId + "-" + pid + SCOPE_SUFFIX == prefix + appId + tail
  {
  }

  /** `app-cosmic-<APP_ID>-1234.scope` yields the app id. */
  lemma AppIdWithScopePid()
    ensures CosmicFlatpakName(COSMIC_SCOPE + APP_ID + "-1234.scope") == Some(APP_ID)
  {
    ScopeNameRoundTrip(COSMIC_SCOPE, APP_ID, 1234);
    PidTail1234();
    RegroupTail(COSMIC_SCOPE, APP_ID, Decimal(1234), "-1234.scope");
  }

  /** Without a pid the scope is rejected. */
  lemma AppIdWithScopeNoPidFails()
    ensures CosmicFlatpakName(COSMIC_SCOPE + APP_ID + SCOPE_SUFFIX).None?
  {
    var rest := APP_ID + SCOPE_SUFFIX;
    ScopeRestOfPrefixed(COSMIC_SCOPE, rest);
    assert forall i | 0 <= i < |rest| :: rest[i] != '-';
    assert RSplitOnce(rest, '-').None?;
  }
}
