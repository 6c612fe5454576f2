/**
 * The post-start command of a guest (internal/guestcfg/guestcfg.go) and its way through the
 * $'...' wrapper of BuildExecCommandString (internal/utils/cmd.go).
 */
module GuestScript {
  import opened Wrappers
  import opened DollarQuotes

  const HostNameFallback: string := "macos-vm"
  const SuffixHexLen: nat := 8
  const MaxBaseLen: nat := 63 - 1 - SuffixHexLen

  // ---------------------------------------------------------------- the base of the host name

  predicate Alphanumeric(c: char) {
    'A' <= c <= 'Z' || 'a' <= c <= 'z' || '0' <= c <= '9'
  }

  predicate NameChar(c: char) {
    Alphanumeric(c) || c == '-'
  }

  ghost predicate NameChars(s: string) {
    forall i :: 0 <= i < |s| ==> NameChar(s[i])
  }

  function Keep(c: char): char {
    if NameChar(c) then c else '-'
  }

  function KeepAll(s: string): (r: string)
    ensures |r| == |s| && forall i :: 0 <= i < |r| ==> r[i] == Keep(s[i])
  {
    seq(|s|, i requires 0 <= i < |s| => Keep(s[i]))
  }

  function TrimLeft(s: string): (r: string)
    ensures |r| <= |s| && r == s[|s| - |r|..]
    ensures r != "" ==> r[0] != '-'
    ensures forall i :: 0 <= i < |s| - |r| ==> s[i] == '-'
  {
    if s != "" && s[0] == '-' then TrimLeft(s[1..]) else s
  }

  function TrimRight(s: string): (r: string)
    ensures |r| <= |s| && r == s[..|r|]
    ensures r != "" ==> r[|r| - 1] != '-'
    ensures forall i :: |r| <= i < |s| ==> s[i] == '-'
  {
    if s != "" && s[|s| - 1] == '-' then TrimRight(s[..|s| - 1]) else s
  }

  /** strings.Trim(s, "-"). */
  function Trim(s: string): string {
    TrimRight(TrimLeft(s))
  }

  function Cap(name: string): string {
    if |name| <= MaxBaseLen then name else name[..MaxBaseLen]
  }

  function BaseOf(name: string): string {
    var kept := Trim(KeepAll(Cap(name)));
    if kept == "" then HostNameFallback else kept
  }

  /** sanitizeBase. */
  method SanitizeBase(name: string) returns (r: string)
    ensures r == BaseOf(name)
  {
    var b := "";
    var i := 0;
    while i < |name|
      invariant i <= |name| && i < MaxBaseLen
      invariant |b| == i && forall j :: 0 <= j < i ==> b[j] == Keep(name[j])
    {
      if 'A' <= name[i] <= 'Z' || 'a' <= name[i] <= 'z' || '0' <= name[i] <= '9' || name[i] == '-' {
        b := b + [name[i]];
      } else {
        b := b + ['-'];
      }
      i := i + 1;
      if |b| >= MaxBaseLen {
        break;
      }
    }
    assert b == KeepAll(Cap(name));
    var out := Trim(b);
    return if out == "" then HostNameFallback else out;
  }

  /** A name that needs no repair: at most 54 characters, none of them foreign, and no hyphen at an end. */
  ghost predicate ValidBase(s: string) {
    && 0 < |s| <= MaxBaseLen
    && NameChars(s)
    && s[0] != '-' && s[|s| - 1] != '-'
  }

  /** Trimming cuts the hyphens at both ends and nothing else. */
  lemma TrimCuts(s: string) returns (a: nat, b: nat)
    ensures a <= b <= |s| && Trim(s) == s[a..b]
    ensures forall i :: 0 <= i < a || b <= i < |s| ==> s[i] == '-'
    ensures a < b ==> s[a] != '-' && s[b - 1] != '-'
  {
    var left := TrimLeft(s);
    a := |s| - |left|;
    b := a + |TrimRight(left)|;
    forall i | 0 <= i < a || b <= i < |s|
      ensures s[i] == '-'
    {
      if b <= i {
        assert s[i] == left[i - a];
      }
    }
  }

  lemma FallbackIsValid()
    ensures ValidBase(HostNameFallback)
  {
  }

  /** Every base is valid. */
  lemma BaseIsValid(name: string)
    ensures ValidBase(BaseOf(name))
  {
    FallbackIsValid();
    KeptTrimmed(Cap(name));
  }

  lemma KeptTrimmed(s: string)
    requires |s| <= MaxBaseLen
    ensures Trim(KeepAll(s)) != "" ==> ValidBase(Trim(KeepAll(s)))
  {
    var a, b := TrimCuts(KeepAll(s));
    KeptIsClean(KeepAll(s), s, a, b);
  }

  lemma KeptIsClean(kept: string, s: string, a: nat, b: nat)
    requires |kept| == |s| && forall i :: 0 <= i < |s| ==> kept[i] == Keep(s[i])
    requires a <= b <= |s|
    ensures NameChars(kept[a..b])
  {
  }

  lemma NothingToTrim(s: string)
    requires s != "" && s[0] != '-' && s[|s| - 1] != '-'
    ensures Trim(s) == s
  {
  }

  /** Only a valid name is its own base. */
  lemma BaseIsNameIff(name: string)
    ensures BaseOf(name) == name <==> ValidBase(name)
  {
    BaseIsValid(name);
    if ValidBase(name) {
      assert KeepAll(name) == name;
      NothingToTrim(name);
    }
  }

  lemma TrimmedAway(s: string)
    ensures Trim(s) == "" <==> forall i :: 0 <= i < |s| ==> s[i] == '-'
  {
    var a, b := TrimCuts(s);
  }

  /** The fallback stands for the names without a letter or digit in their first 54 characters. */
  lemma FallbackIff(name: string)
    ensures if exists i :: 0 <= i < |Cap(name)| && Alphanumeric(Cap(name)[i])
            then BaseOf(name) == Trim(KeepAll(Cap(name)))
            else BaseOf(name) == HostNameFallback
  {
    TrimmedAway(KeepAll(Cap(name)));
    assert forall i :: 0 <= i < |Cap(name)| ==> (KeepAll(Cap(name))[i] == '-' <==> !Alphanumeric(Cap(name)[i]));
  }

  /** The base is this stretch of the name, foreign characters replaced by hyphens. */
  predicate IsStretch(name: string, base: string, a: nat) {
    && a + |base| <= |name| && a + |base| <= 54
    && (forall i :: 0 <= i < |base| ==>
          base[i] == if Alphanumeric(name[a + i]) then name[a + i] else '-')
    && (forall j :: 0 <= j < |name| && j < 54 && !(a <= j < a + |base|) ==> !Alphanumeric(name[j]))
  }

  lemma KeptIs(name: string, j: nat)
    requires j < |name| && j < 54
    ensures KeepAll(Cap(name))[j] == if Alphanumeric(name[j]) then name[j] else '-'
  {
  }

  lemma TrimmedIsStretch(name: string, a: nat, b: nat)
    requires a <= b <= |Cap(name)|
    requires forall j :: 0 <= j < a || b <= j < |Cap(name)| ==> KeepAll(Cap(name))[j] == '-'
    ensures IsStretch(name, KeepAll(Cap(name))[a..b], a)
  {
    var kept := KeepAll(Cap(name));
    forall j | 0 <= j < |kept|
      ensures kept[j] == if Alphanumeric(name[j]) then name[j] else '-'
    {
      KeptIs(name, j);
    }
  }

  /**
   * The base in characters: the first 54 of the name without what is foreign at either end, each foreign
   * character inside replaced by a hyphen; the fallback when they have no letter and no digit.
   */
  lemma BaseIsStretch(name: string)
    ensures if forall j :: 0 <= j < |name| && j < 54 ==> !Alphanumeric(name[j]) then BaseOf(name) == "macos-vm"
            else exists a: nat :: IsStretch(name, BaseOf(name), a) && ValidBase(BaseOf(name))
  {
    BaseIsValid(name);
    var a, b := TrimCuts(KeepAll(Cap(name)));
    TrimmedIsStretch(name, a, b);
    if a < b {
      KeptIs(name, a);
    }
  }

  // ---------------------------------------------------------------- the host name

  type Byte = b: nat | b < 256

  /** The 32 bytes of a SHA-256 sum. */
  type Sum = s: seq<Byte> | |s| == 32 witness seq(32, i => 0)

  function HexDigit(n: nat): (c: char)
    requires n < 16
    ensures '0' <= c <= '9' || 'a' <= c <= 'f'
  {
    if n < 10 then '0' + n as char else 'a' + (n - 10) as char
  }

  function Hex(s: seq<Byte>): (r: string)
    ensures |r| == 2 * |s|
    ensures forall i :: 0 <= i < |s| ==> r[2 * i] == HexDigit(s[i] / 16) && r[2 * i + 1] == HexDigit(s[i] % 16)
  {
    if s == [] then "" else [HexDigit(s[0] / 16), HexDigit(s[0] % 16)] + Hex(s[1..])
  }

  function SuffixOf(hash: string -> Sum, namespace: string, podName: string): (r: string)
    ensures |r| == SuffixHexLen
  {
    Hex(hash(namespace + "/" + podName))[..SuffixHexLen]
  }

  function HostName(hash: string -> Sum, namespace: string, podName: string): string {
    BaseOf(podName) + "-" + SuffixOf(hash, namespace, podName)
  }

  lemma SuffixIsHex(hash: string -> Sum, namespace: string, podName: string)
    ensures forall k :: 0 <= k < SuffixHexLen ==> Alphanumeric(SuffixOf(hash, namespace, podName)[k])
  {
    var sum := hash(namespace + "/" + podName);
    var suffix := SuffixOf(hash, namespace, podName);
    forall k | 0 <= k < |suffix|
      ensures Alphanumeric(suffix[k])
    {
      var i := k / 2;
      assert Hex(sum)[2 * i] == HexDigit(sum[i] / 16) && Hex(sum)[2 * i + 1] == HexDigit(sum[i] % 16);
    }
  }

  lemma NameOfParts(base: string, suffix: string)
    requires ValidBase(base) && |suffix| == SuffixHexLen
    requires forall k :: 0 <= k < SuffixHexLen ==> Alphanumeric(suffix[k])
    ensures var h := base + "-" + suffix;
            && 10 <= |h| <= 63 && NameChars(h) && h[0] != '-' && h[|h| - 1] != '-'
  {
    var h := base + "-" + suffix;
    assert h[|h| - 1] == suffix[SuffixHexLen - 1];
  }

  /** A host name has at most 63 characters, all of them letters, digits and hyphens, and no hyphen at an end. */
  lemma HostNameIsValid(hash: string -> Sum, namespace: string, podName: string)
    ensures var h := HostName(hash, namespace, podName);
            && 10 <= |h| <= 63 && NameChars(h) && h[0] != '-' && h[|h| - 1] != '-'
  {
    BaseIsValid(podName);
    SuffixIsHex(hash, namespace, podName);
    NameOfParts(BaseOf(podName), SuffixOf(hash, namespace, podName));
  }

  /** The value of a hexadecimal digit. */
  function Nibble(c: char): int {
    if '0' <= c <= '9' then c as int - '0' as int else c as int - 'a' as int + 10
  }

  /** The 8 digits spell the first four bytes of the sum. */
  predicate Spells(digits: string, sum: Sum) {
    && |digits| == 8
    && 16 * Nibble(digits[0]) + Nibble(digits[1]) == sum[0]
    && 16 * Nibble(digits[2]) + Nibble(digits[3]) == sum[1]
    && 16 * Nibble(digits[4]) + Nibble(digits[5]) == sum[2]
    && 16 * Nibble(digits[6]) + Nibble(digits[7]) == sum[3]
  }

  /**
   * The host name is the base, a hyphen and 8 digits, which spell the first four bytes of the sum of
   * namespace, slash and pod name.
   */
  lemma HostNameSpellsTheSum(hash: string -> Sum, namespace: string, podName: string)
    ensures exists digits: string ::
              && HostName(hash, namespace, podName) == BaseOf(podName) + "-" + digits
              && Spells(digits, hash(namespace + "/" + podName))
  {
    SuffixSpells(hash(namespace + "/" + podName));
  }

  lemma SuffixSpells(sum: Sum)
    ensures Spells(Hex(sum)[..8], sum)
  {
    SumDigits(sum, 0);
    SumDigits(sum, 1);
    SumDigits(sum, 2);
    SumDigits(sum, 3);
  }

  lemma DigitSpells(n: nat)
    requires n < 16
    ensures Nibble(HexDigit(n)) == n
  {
  }

  lemma SumDigits(sum: Sum, i: nat)
    requires i < 4
    ensures 16 * Nibble(Hex(sum)[2 * i]) + Nibble(Hex(sum)[2 * i + 1]) == sum[i]
  {
    DigitSpells(sum[i] / 16);
    DigitSpells(sum[i] % 16);
  }

  /** The first four bytes agree. */
  predicate SameHead(a: Sum, b: Sum) {
    a[0] == b[0] && a[1] == b[1] && a[2] == b[2] && a[3] == b[3]
  }

  lemma SameHeadSpelled(a: Sum, b: Sum)
    ensures Hex(a)[..8] == Hex(b)[..8] <==> SameHead(a, b)
  {
    var u, v := Hex(a)[..8], Hex(b)[..8];
    forall i | 0 <= i < 4
      ensures u[2 * i] == v[2 * i] && u[2 * i + 1] == v[2 * i + 1] <==> a[i] == b[i]
    {
      SumDigits(a, i);
      SumDigits(b, i);
    }
    if SameHead(a, b) {
      forall k | 0 <= k < 8
        ensures u[k] == v[k]
      {
        var i := k / 2;
        assert a[i] == b[i] && (k == 2 * i || k == 2 * i + 1);
      }
    }
  }

  /** So two pods have the same host name exactly when their bases and the first four bytes of their sums agree. */
  lemma HostNamesEqualBySum(hash: string -> Sum, namespace: string, podName: string, otherSpace: string,
      otherName: string)
    ensures HostName(hash, namespace, podName) == HostName(hash, otherSpace, otherName) <==>
            && BaseOf(podName) == BaseOf(otherName)
            && SameHead(hash(namespace + "/" + podName), hash(otherSpace + "/" + otherName))
  {
    HostNamesEqualIff(hash, namespace, podName, otherSpace, otherName);
    SameHeadSpelled(hash(namespace + "/" + podName), hash(otherSpace + "/" + otherName));
  }

  lemma SameParts(x: string, u: string, y: string, v: string)
    requires |u| == |v|
    ensures x + "-" + u == y + "-" + v <==> x == y && u == v
  {
    var a, b := x + "-" + u, y + "-" + v;
    if a == b {
      assert x == a[..|x|] && y == b[..|y|];
      assert u == a[|x| + 1..] && v == b[|y| + 1..];
    }
  }

  /** Two host names are the same exactly when both their bases and their suffixes are. */
  lemma HostNamesEqualIff(hash: string -> Sum, namespace: string, podName: string, otherSpace: string,
      otherName: string)
    ensures HostName(hash, namespace, podName) == HostName(hash, otherSpace, otherName) <==>
            BaseOf(podName) == BaseOf(otherName)
            && SuffixOf(hash, namespace, podName) == SuffixOf(hash, otherSpace, otherName)
  {
    SameParts(BaseOf(podName), SuffixOf(hash, namespace, podName), BaseOf(otherName),
        SuffixOf(hash, otherSpace, otherName));
  }

  // ---------------------------------------------------------------- the command

  function Join(steps: seq<string>): string {
    if steps == [] then "" else if |steps| == 1 then steps[0] else steps[0] + "; " + Join(steps[1..])
  }

  function Steps(h: string): seq<string> {
    [ "sudo -n defaults write " + "/Library/Preferences/com.apple." + "mDNSResponder.plist NoMulticast" +
        "Advertisements -bool YES",
      "sudo -n scutil --set LocalHostName " + h,
      "sudo -n scutil --set ComputerName " + h,
      "sudo -n scutil --set HostName " + h,
      "sudo -n killall mDNSResponder 2>/dev/null",
      "true" ]
  }

  function ScriptOf(hash: string -> Sum, namespace: string, podName: string): string {
    Join(Steps(HostName(hash, namespace, podName)))
  }

  /** BuildPostStartProbeCommand. */
  method BuildPostStartProbeCommand(hash: string -> Sum, namespace: string, podName: string) returns (cmd: seq<string>)
    ensures cmd == ["sh", "-c", ScriptOf(hash, namespace, podName)]
  {
    var base := SanitizeBase(podName);
    var h := base + "-" + SuffixOf(hash, namespace, podName);
    return ["sh", "-c", Join(Steps(h))];
  }

  lemma JoinSix(a: string, b: string, c: string, d: string, e: string, f: string)
    ensures Join([a, b, c, d, e, f]) == a + "; " + (b + "; " + (c + "; " + (d + "; " + (e + "; " + f))))
  {
    assert Join([e, f]) == e + "; " + f by {
      assert [e, f][1..] == [f];
    }
    assert Join([d, e, f]) == d + "; " + Join([e, f]) by {
      assert [d, e, f][1..] == [e, f];
    }
    assert Join([c, d, e, f]) == c + "; " + Join([d, e, f]) by {
      assert [c, d, e, f][1..] == [d, e, f];
    }
    assert Join([b, c, d, e, f]) == b + "; " + Join([c, d, e, f]) by {
      assert [b, c, d, e, f][1..] == [c, d, e, f];
    }
    assert [a, b, c, d, e, f][1..] == [b, c, d, e, f];
  }

  /** The script, word for word. */
  lemma ScriptIs(hash: string -> Sum, namespace: string, podName: string)
    ensures var h := HostName(hash, namespace, podName);
            ScriptOf(hash, namespace, podName) ==
            ("sudo -n defaults write " + "/Library/Preferences/com.apple." + "mDNSResponder.plist NoMulticast" +
             "Advertisements -bool YES") + "; "
            + ("sudo -n scutil --set LocalHostName " + h + "; "
               + ("sudo -n scutil --set ComputerName " + h + "; "
                  + ("sudo -n scutil --set HostName " + h + "; "
                     + ("sudo -n killall mDNSResponder 2>/dev/null" + "; " + "true"))))
  {
    var h := HostName(hash, namespace, podName);
    JoinSix("sudo -n defaults write " + "/Library/Preferences/com.apple." + "mDNSResponder.plist NoMulticast" +
            "Advertisements -bool YES",
            "sudo -n scutil --set LocalHostName " + h,
            "sudo -n scutil --set ComputerName " + h,
            "sudo -n scutil --set HostName " + h,
            "sudo -n killall mDNSResponder 2>/dev/null",
            "true");
  }

  lemma PlainConcat(a: string, b: string)
    requires Plain(a) && Plain(b)
    ensures Plain(a + b)
  {
  }

  lemma {:induction false} JoinIsPlain(steps: seq<string>)
    requires forall i :: 0 <= i < |steps| ==> Plain(steps[i])
    ensures Plain(Join(steps))
  {
    if |steps| > 1 {
      JoinIsPlain(steps[1..]);
      PlainConcat(steps[0], "; ");
      PlainConcat(steps[0] + "; ", Join(steps[1..]));
    }
  }

  lemma DefaultsIsPlain()
    ensures Plain("sudo -n defaults write " + "/Library/Preferences/com.apple." +
              "mDNSResponder.plist NoMulticast" + "Advertisements -bool YES")
  {
    PlainConcat("sudo -n defaults write ", "/Library/Preferences/com.apple.");
    PlainConcat("mDNSResponder.plist NoMulticast", "Advertisements -bool YES");
    PlainConcat("sudo -n defaults write " + "/Library/Preferences/com.apple.", "mDNSResponder.plist NoMulticast" +
        "Advertisements -bool YES");
    assert ("sudo -n defaults write " + "/Library/Preferences/com.apple.") +
        ("mDNSResponder.plist NoMulticast" + "Advertisements -bool YES")
        == "sudo -n defaults write " + "/Library/Preferences/com.apple." + "mDNSResponder.plist NoMulticast" +
            "Advertisements -bool YES";
  }

  lemma StepsArePlain(h: string)
    requires NameChars(h)
    ensures forall i :: 0 <= i < |Steps(h)| ==> Plain(Steps(h)[i])
  {
    DefaultsIsPlain();
    PlainConcat("sudo -n scutil --set LocalHostName ", h);
    PlainConcat("sudo -n scutil --set ComputerName ", h);
    PlainConcat("sudo -n scutil --set HostName ", h);
  }

  /** For every pod the script has no single quote and no backslash. */
  lemma ScriptIsPlain(hash: string -> Sum, namespace: string, podName: string)
    ensures Plain(ScriptOf(hash, namespace, podName))
  {
    var h := HostName(hash, namespace, podName);
    HostNameIsValid(hash, namespace, podName);
    StepsArePlain(h);
    JoinIsPlain(Steps(h));
  }

  datatype EnvVar = EnvVar(name: string, value: string)

  function Exports(export_: EnvVar -> string, env: seq<EnvVar>): string {
    if env == [] then "" else Exports(export_, env[..|env| - 1]) + export_(env[|env| - 1])
  }

  function Arguments(quote: string -> string, args: seq<string>): string {
    if args == [] then "" else Arguments(quote, args[..|args| - 1]) + " " + quote(args[|args| - 1])
  }

  /** Every exported variable stands in its place, with all before it and all after it. */
  lemma {:induction false} ExportStands(export_: EnvVar -> string, env: seq<EnvVar>, i: nat)
    requires i < |env|
    ensures Exports(export_, []) == ""
    ensures Exports(export_, env) == Exports(export_, env[..i]) + export_(env[i]) + Exports(export_, env[i + 1..])
    decreases |env|
  {
    var last := |env| - 1;
    if i < last {
      ExportStands(export_, env[..last], i);
      assert env[..last][..i] == env[..i] && env[..last][i + 1..] == env[i + 1..][..last - i - 1];
    }
  }

  /** Every argument stands in its place, quoted and after a space. */
  lemma {:induction false} ArgumentStands(quote: string -> string, args: seq<string>, i: nat)
    requires i < |args|
    ensures Arguments(quote, []) == ""
    ensures Arguments(quote, args) ==
            Arguments(quote, args[..i]) + (" " + quote(args[i])) + Arguments(quote, args[i + 1..])
    decreases |args|
  {
    var last := |args| - 1;
    if i < last {
      ArgumentStands(quote, args[..last], i);
      assert args[..last][..i] == args[..i] && args[..last][i + 1..] == args[i + 1..][..last - i - 1];
      assert args[i + 1..][last - i - 1] == args[last];
    }
  }

  /** BuildExecCommandString; None for a command that is not a shell command. */
  method BuildExecCommandString(
      export_: EnvVar -> string, quote: string -> string, cmd: seq<string>, env: seq<EnvVar>)
    returns (r: Option<string>)
    ensures r.None? <==> |cmd| < 3 || cmd[1] != "-c"
    ensures r.Some? ==>
              r.value == Exports(export_, env) + cmd[0] + " " + cmd[1] + " $'" + cmd[2] + "'" +
                  Arguments(quote, cmd[3..])
  {
    if |cmd| < 3 || cmd[1] != "-c" {
      return None;
    }
    var cmdStr := "";
    for i := 0 to |env|
      invariant cmdStr == Exports(export_, env[..i])
    {
      assert env[..i + 1][..i] == env[..i];
      cmdStr := cmdStr + export_(env[i]);
    }
    assert env[..|env|] == env;
    cmdStr := cmdStr + cmd[0] + " " + cmd[1] + " $'" + cmd[2] + "'";
    ghost var command := cmdStr;
    for i := 3 to |cmd|
      invariant cmdStr == command + Arguments(quote, cmd[3..i])
    {
      assert cmd[3..i + 1][..i - 3] == cmd[3..i];
      cmdStr := cmdStr + " " + quote(cmd[i]);
    }
    assert cmd[3..|cmd|] == cmd[3..];
    return Some(cmdStr);
  }

  /**
   * The wrapper reads back as its command, with everything after it left over, exactly when the
   * command has no single quote and no backslash.
   */
  lemma WrapperReadsBackIff(command: string, rest: string)
    ensures Lex(command + "'" + rest) == Done(command, rest) <==> Plain(command)
  {
    if Plain(command) {
      PlainReadsBack(command, rest);
    } else {
      OnlyPlainReadsBack(command, rest);
    }
  }

  /** The script of every pod reads back as itself, whatever the arguments that follow it. */
  lemma ScriptReadsBack(hash: string -> Sum, namespace: string, podName: string, rest: string)
    ensures Lex(ScriptOf(hash, namespace, podName) + "'" + rest) == Done(ScriptOf(hash, namespace, podName), rest)
  {
    ScriptIsPlain(hash, namespace, podName);
    WrapperReadsBackIff(ScriptOf(hash, namespace, podName), rest);
  }
}
