/** Choosing the pager for diffs (config.go): GIT_PAGER, then PAGER, then git's core.pager, and
    the user's pager template with its column width. */
module Pager {
  import opened Wrappers

  /** The git command whose output names the configured pager. */
  const PagerConfigCommand: string := "git config --get-all core.pager"

  /** The White_Space code points that Go's unicode.IsSpace accepts. */
  const WhiteSpace: set<char> :=
    {
      '\U{9}', '\U{A}', '\U{B}', '\U{C}', '\U{D}', '\U{20}', '\U{85}', '\U{A0}', '\U{1680}',
      '\U{2000}', '\U{2001}', '\U{2002}', '\U{2003}', '\U{2004}', '\U{2005}', '\U{2006}',
      '\U{2007}', '\U{2008}', '\U{2009}', '\U{200A}', '\U{2028}', '\U{2029}', '\U{202F}',
      '\U{205F}', '\U{3000}'
    }

  /** Go's unicode.IsSpace. */
  predicate IsSpace(c: char)
  {
    c in WhiteSpace
  }

  /** s without its leading white space. */
  function TrimLeft(s: string): (r: string)
    ensures |r| <= |s| && r == s[|s| - |r|..]
    ensures forall k :: 0 <= k < |s| - |r| ==> IsSpace(s[k])
    ensures r == [] || !IsSpace(r[0])
  {
    if s == [] || !IsSpace(s[0]) then s else TrimLeft(s[1..])
  }

  /** s without its trailing white space. */
  function TrimRight(s: string): (r: string)
    ensures |r| <= |s| && r == s[..|r|]
    ensures forall k :: |r| <= k < |s| ==> IsSpace(s[k])
    ensures r == [] || !IsSpace(r[|r| - 1])
  {
    if s == [] || !IsSpace(s[|s| - 1]) then s else TrimRight(s[..|s| - 1])
  }

  /** strings.TrimSpace: the part of s between its leading and its trailing white space. */
  function TrimSpace(s: string): (r: string)
    ensures |r| <= |s|
    ensures r == [] || (!IsSpace(r[0]) && !IsSpace(r[|r| - 1]))
  {
    var l := TrimLeft(s);
    assert l == [] || !IsSpace(l[0]);
    TrimRight(l)
  }

  /** TrimSpace removes only white space: what it drops before and after its result is space. */
  lemma TrimSpaceDropsOnlySpace(s: string)
    ensures var a := |s| - |TrimLeft(s)|;
            && a + |TrimSpace(s)| <= |s| && TrimSpace(s) == s[a..a + |TrimSpace(s)|]
            && (forall k :: 0 <= k < a ==> IsSpace(s[k]))
            && (forall k :: a + |TrimSpace(s)| <= k < |s| ==> IsSpace(s[k]))
  {
    TrimSpaceInfix(s);
    forall k | |s| - |TrimLeft(s)| + |TrimSpace(s)| <= k < |s|
      ensures IsSpace(s[k])
    {
      TrimSpaceTrailing(s, k);
    }
  }

  /** TrimSpace(s) is the part of s that starts where TrimLeft(s) starts. */
  lemma TrimSpaceInfix(s: string)
    ensures var a := |s| - |TrimLeft(s)|;
            a + |TrimSpace(s)| <= |s| && TrimSpace(s) == s[a..a + |TrimSpace(s)|]
  {
    var l := TrimLeft(s);
    var r := TrimSpace(s);
    assert r == TrimRight(l);
    PrefixOfSuffix(s, l, r);
  }

  /** A prefix r of a suffix l of s is the slice of s where l starts. */
  lemma PrefixOfSuffix(s: string, l: string, r: string)
    requires |l| <= |s| && l == s[|s| - |l|..]
    requires |r| <= |l| && r == l[..|r|]
    ensures r == s[|s| - |l|..|s| - |l| + |r|]
  {
    var a := |s| - |l|;
    forall k | 0 <= k < |r|
      ensures r[k] == s[a..a + |r|][k]
    {
      assert r[k] == l[k];
      assert l[k] == s[a + k];
    }
  }

  /** A character of s after the end of TrimSpace(s) is white space. */
  lemma TrimSpaceTrailing(s: string, k: int)
    requires |s| - |TrimLeft(s)| + |TrimSpace(s)| <= k < |s|
    ensures IsSpace(s[k])
  {
    var l := TrimLeft(s);
    var a := |s| - |l|;
    assert TrimSpace(s) == TrimRight(l);
    TrimRightDropsSpace(l, k - a);
    TrimLeftAt(s, k);
  }

  /** TrimLeft(s) is the tail of s: its characters sit at the same place from the end. */
  lemma TrimLeftAt(s: string, k: int)
    requires |s| - |TrimLeft(s)| <= k < |s|
    ensures s[k] == TrimLeft(s)[k - (|s| - |TrimLeft(s)|)]
  {
    var l := TrimLeft(s);
    assert l == s[|s| - |l|..];
  }

  /** Each character TrimRight drops is white space. */
  lemma TrimRightDropsSpace(l: string, k: int)
    requires |TrimRight(l)| <= k < |l|
    ensures IsSpace(l[k])
  {
  }

  /** Text that neither starts nor ends with white space is its own trimming. */
  lemma {:induction false} TrimSpaceOfTrimmed(s: string)
    requires s == [] || (!IsSpace(s[0]) && !IsSpace(s[|s| - 1]))
    ensures TrimSpace(s) == s
  {
  }

  /** Trimming twice is trimming once. */
  lemma TrimSpaceIdempotent(s: string)
    ensures TrimSpace(TrimSpace(s)) == TrimSpace(s)
  {
    TrimSpaceOfTrimmed(TrimSpace(s));
  }

  /** sep occurs in s at position j. */
  predicate OccursAt(s: string, sep: string, j: int)
  {
    0 <= j && j + |sep| <= |s| && s[j..j + |sep|] == sep
  }

  /** strings.Index for a non-empty separator, with |s| standing for "not found". */
  function Index(s: string, sep: string): (i: nat)
    requires |sep| > 0
    ensures i <= |s|
    ensures i < |s| ==> OccursAt(s, sep, i)
    ensures forall j :: 0 <= j < i ==> !OccursAt(s, sep, j)
    decreases |s|
  {
    if |s| < |sep| then |s|
    else if s[..|sep|] == sep then 0
    else
      var i := 1 + Index(s[1..], sep);
      assert forall j :: 1 <= j < i ==> !OccursAt(s, sep, j) by {
        forall j | 1 <= j < i
          ensures !OccursAt(s, sep, j)
        {
          OccursShift(s, sep, j);
        }
      }
      i
  }

  /** An occurrence past the first character is an occurrence in the rest of the string. */
  lemma OccursShift(s: string, sep: string, j: int)
    requires |s| >= 1 && 1 <= j
    ensures OccursAt(s, sep, j) <==> OccursAt(s[1..], sep, j - 1)
  {
    if j + |sep| <= |s| {
      var here, there := s[j..j + |sep|], s[1..][j - 1..j - 1 + |sep|];
      forall k | 0 <= k < |sep|
        ensures here[k] == there[k]
      {
        assert here[k] == s[j + k];
        assert there[k] == s[1..][j - 1 + k];
      }
      assert here == there;
    }
  }

  /** strings.Split(s, sep)[0] for a non-empty separator: the text before the first sep, or all
      of s when sep does not occur. */
  function BeforeFirst(s: string, sep: string): (r: string)
    requires |sep| > 0
    ensures |r| <= |s| && r == s[..|r|]
    ensures forall j :: !OccursAt(r, sep, j)
    ensures |r| < |s| ==> OccursAt(s, sep, |r|)
    ensures forall j :: 0 <= j < |r| ==> !OccursAt(s, sep, j)
    ensures (forall j :: !OccursAt(s, sep, j)) ==> r == s
  {
    var i := Index(s, sep);
    var r := s[..i];
    assert forall j :: !OccursAt(r, sep, j) by {
      forall j | OccursAt(r, sep, j)
        ensures false
      {
        OccursInPrefix(s, sep, i, j);
      }
    }
    r
  }

  /** An occurrence in a prefix of s is an occurrence in s that ends within the prefix. */
  lemma OccursInPrefix(s: string, sep: string, i: int, j: int)
    requires 0 <= i <= |s| && OccursAt(s[..i], sep, j)
    ensures OccursAt(s, sep, j) && j + |sep| <= i
  {
    assert s[..i][j..j + |sep|] == s[j..j + |sep|];
  }

  /** The first line of text holds no newline. */
  lemma FirstLineHasNoNewline(text: string)
    ensures '\n' !in BeforeFirst(text, "\n")
  {
    var r := BeforeFirst(text, "\n");
    forall k | 0 <= k < |r|
      ensures r[k] != '\n'
    {
      assert !OccursAt(r, "\n", k);
      assert r[k..k + 1] == [r[k]];
    }
  }

  /** ConfiguredPager: GIT_PAGER when set, otherwise PAGER when set, otherwise the first line of
      git's trimmed core.pager output, or "" when that command fails. Environment lookups and the
      command runner are given as functions. */
  function ConfiguredPager(getenv: string -> string, run: string -> Result<string, string>): (r: string)
    ensures getenv("GIT_PAGER") != "" ==> r == getenv("GIT_PAGER")
    ensures getenv("GIT_PAGER") == "" && getenv("PAGER") != "" ==> r == getenv("PAGER")
    ensures getenv("GIT_PAGER") == "" && getenv("PAGER") == "" ==>
              match run(PagerConfigCommand)
              case Err(_) => r == ""
              case Ok(output) =>
                && '\n' !in r
                && |r| <= |TrimSpace(output)| && r == TrimSpace(output)[..|r|]
                && (r == [] || !IsSpace(r[0]))
                && ('\n' !in TrimSpace(output) ==> r == TrimSpace(output))
  {
    if getenv("GIT_PAGER") != "" then getenv("GIT_PAGER")
    else if getenv("PAGER") != "" then getenv("PAGER")
    else
      match run(PagerConfigCommand)
      case Err(_) => ""
      case Ok(output) =>
        var trimmedOutput := TrimSpace(output);
        var line := BeforeFirst(trimmedOutput, "\n");
        FirstLineHasNoNewline(trimmedOutput);
        assert !('\n' in trimmedOutput) ==> forall j :: !OccursAt(trimmedOutput, "\n", j) by {
          forall j | OccursAt(trimmedOutput, "\n", j)
            ensures '\n' in trimmedOutput
          {
            assert trimmedOutput[j] == trimmedOutput[j..j + 1][0];
          }
        }
        line
  }

  /** When git's output names the pager, the result is the trimmed output up to its first
      newline: either all of it, or a prefix followed by a newline. */
  lemma ConfiguredPagerIsFirstLine(getenv: string -> string, run: string -> Result<string, string>)
    requires getenv("GIT_PAGER") == "" && getenv("PAGER") == "" && run(PagerConfigCommand).Ok?
    ensures var r, t := ConfiguredPager(getenv, run), TrimSpace(run(PagerConfigCommand).value);
            && |r| <= |t| && r == t[..|r|]
            && (|r| < |t| ==> t[|r|] == '\n')
            && '\n' !in r
  {
    var t := TrimSpace(run(PagerConfigCommand).value);
    var r := ConfiguredPager(getenv, run);
    assert r == BeforeFirst(t, "\n");
    FirstLineHasNoNewline(t);
    if |r| < |t| {
      assert OccursAt(t, "\n", |r|);
      assert t[|r|] == t[|r|..|r| + 1][0];
    }
  }

  /** Go's integer division, which truncates toward zero, by a positive divisor. */
  function GoDiv(a: int, b: int): (q: int)
    requires b > 0
    ensures a >= 0 ==> 0 <= a - b * q < b
    ensures a < 0 ==> -b < a - b * q <= 0
  {
    if a >= 0 then a / b else -((-a) / b)
  }

  /** The columnWidth placeholder value: width/2 - 6 with Go's truncating division. */
  function ColumnWidth(width: int): (c: int)
    ensures width >= 0 ==> 0 <= width - 2 * (c + 6) <= 1
    ensures width < 0 ==> -1 <= width - 2 * (c + 6) <= 0
  {
    GoDiv(width, 2) - 6
  }

  /** For a negative odd width the truncating division differs from Dafny's Euclidean one. */
  lemma ColumnWidthTruncates()
    ensures ColumnWidth(-3) == -7 && -3 / 2 - 6 == -8
  {
  }

  function DigitChar(d: nat): (c: char)
    requires d < 10
    ensures '0' <= c <= '9'
  {
    ('0' as int + d) as char
  }

  predicate AllDigits(s: string)
  {
    forall k :: 0 <= k < |s| ==> '0' <= s[k] <= '9'
  }

  /** Decimal digits of n, most significant first, without leading zeros. */
  function NatToDecimal(n: nat): (s: string)
    ensures |s| >= 1 && AllDigits(s)
    ensures |s| > 1 ==> s[0] != '0'
  {
    if n < 10 then [DigitChar(n)] else NatToDecimal(n / 10) + [DigitChar(n % 10)]
  }

  /** strconv.Itoa */
  function Itoa(n: int): (s: string)
    ensures |s| >= 1
    ensures s[0] == '-' <==> n < 0
  {
    if n < 0 then "-" + NatToDecimal(-n) else NatToDecimal(n)
  }

  /** The value of a string of decimal digits. */
  function DecimalToNat(s: string): nat
    requires AllDigits(s)
  {
    if s == [] then 0 else 10 * DecimalToNat(s[..|s| - 1]) + (s[|s| - 1] as int - '0' as int)
  }

  /** Reading back the decimal digits of n gives n. */
  lemma {:induction false} DecimalRoundTrip(n: nat)
    ensures DecimalToNat(NatToDecimal(n)) == n
  {
    if n >= 10 {
      DecimalRoundTrip(n / 10);
      var s := NatToDecimal(n);
      assert s[..|s| - 1] == NatToDecimal(n / 10);
    }
  }

  /** strconv.Atoi on the strings Itoa produces. */
  function Atoi(s: string): int
    requires |s| >= 1
    requires AllDigits(if s[0] == '-' then s[1..] else s)
  {
    if s[0] == '-' then -(DecimalToNat(s[1..]) as int) else DecimalToNat(s)
  }

  /** Itoa loses nothing: Atoi reads its result back. */
  lemma ItoaRoundTrip(n: int)
    ensures var s := Itoa(n); AllDigits(if s[0] == '-' then s[1..] else s) && Atoi(s) == n
  {
    if n < 0 {
      DecimalRoundTrip(-n);
      assert Itoa(n)[1..] == NatToDecimal(-n);
    } else {
      DecimalRoundTrip(n);
    }
  }

  /** The placeholder values the pager template is resolved with. */
  function PagerTemplateValues(width: int): (m: map<string, string>)
    ensures m.Keys == {"columnWidth"}
    ensures |m["columnWidth"]| >= 1
    ensures m["columnWidth"][0] == '-' <==> width < 12
  {
    map["columnWidth" := Itoa(ColumnWidth(width))]
  }

  /** The columnWidth value reads back as width/2 - 6, truncated as Go truncates. */
  lemma PagerTemplateColumnWidth(width: int)
    ensures var v := PagerTemplateValues(width)["columnWidth"];
            && AllDigits(if v[0] == '-' then v[1..] else v)
            && Atoi(v) == ColumnWidth(width)
  {
    ItoaRoundTrip(ColumnWidth(width));
  }

  /** GetPager: with UseConfig, the configured pager up to its first "| less"; otherwise the
      user's pager template with the columnWidth placeholder resolved (resolve stands for
      ResolvePlaceholderString). */
  function GetPager(width: int, useConfig: bool, pagerTemplate: string,
                    getenv: string -> string, run: string -> Result<string, string>,
                    resolve: (string, map<string, string>) -> string): (r: string)
    ensures useConfig ==>
              var pager := ConfiguredPager(getenv, run);
              && |r| <= |pager| && r == pager[..|r|]
              && (forall j :: !OccursAt(r, "| less", j))
              && (|r| < |pager| ==> OccursAt(pager, "| less", |r|))
              && ((forall j :: !OccursAt(pager, "| less", j)) ==> r == pager)
    ensures !useConfig ==> r == resolve(pagerTemplate, PagerTemplateValues(width))
  {
    if useConfig then
      var pager := ConfiguredPager(getenv, run);
      BeforeFirst(pager, "| less")
    else
      resolve(pagerTemplate, PagerTemplateValues(width))
  }

  /** GetConfigValue: the output of the git config lookup, with any error discarded. */
  function GetConfigValue(key: string, getGitConfigValue: string -> (string, Option<string>)): (r: string)
    ensures r == getGitConfigValue(key).0
  {
    var (output, _) := getGitConfigValue(key);
    output
  }
}
