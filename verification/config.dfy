/** Repository configuration: the list of upstream registries read from the
    configuration file, the database name derived from an origin, and the
    selection of a repository by the `repo` query parameter. */
module Config {
  import opened Basics
  import opened Strings

  /** One configured upstream registry. `url` is an origin of the form
      `host/namespace/image`; `secret` is the Basic credential (empty for
      anonymous pulls); `token` is the cached Bearer token. */
  datatype Repository = Repository(url: string, secret: string, useDatabase: bool, token: string)

  /** JavaScript truthiness of an optional string: present and non-empty. */
  predicate Truthy(s: Option<string>) {
    s.Some? && s.value != ""
  }

  /** The Basic secret: the encoded account when one is configured, empty
      otherwise. The encoder (base64 in the source) is a parameter. */
  function SecretOf(account: Option<string>, encode: string -> string): (secret: string)
    ensures Truthy(account) ==> secret == encode(account.value)
    ensures !Truthy(account) ==> secret == ""
  {
    if Truthy(account) then encode(account.value) else ""
  }

  /** An encoder that never maps a non-empty text to an empty one, as
      base64 does not. */
  ghost predicate KeepsNonEmpty(encode: string -> string) {
    forall a: string :: a != "" ==> encode(a) != ""
  }

  /** With such an encoder, a secret is configured exactly when an account is. */
  lemma SecretIffAccount(account: Option<string>, encode: string -> string)
    requires KeepsNonEmpty(encode)
    ensures SecretOf(account, encode) != "" <==> Truthy(account)
  {
  }

  /** The non-empty pieces, in their original order. */
  function NonEmpty(parts: seq<string>): (r: seq<string>)
    ensures forall p | p in r :: p != "" && p in parts
    ensures forall p | p in parts && p != "" :: p in r
    ensures |r| <= |parts|
  {
    if |parts| == 0 then []
    else if parts[0] == "" then NonEmpty(parts[1..])
    else [parts[0]] + NonEmpty(parts[1..])
  }

  /** The origins listed in the `url` setting: carriage returns deleted,
      split at line feeds, empty lines dropped. An absent setting lists none. */
  function Origins(url: Option<string>): (lines: seq<string>)
    ensures forall l | l in lines :: l != "" && '\n' !in l && '\r' !in l
    ensures Concat(lines) == (if url.Some? then Remove(Remove(url.value, '\r'), '\n') else "")
  {
    if Truthy(url) then
      var text := Remove(url.value, '\r');
      ConcatSplit(text, '\n');
      ConcatNonEmpty(Split(text, '\n'));
      NonEmpty(Split(text, '\n'))
    else
      []
  }

  /** Dropping empty pieces does not change their concatenation. */
  lemma {:induction false} ConcatNonEmpty(parts: seq<string>)
    ensures Concat(NonEmpty(parts)) == Concat(parts)
  {
    if |parts| > 0 {
      ConcatNonEmpty(parts[1..]);
    }
  }

  /** When the setting has no empty line, the origins joined by line feeds
      give back the setting with its carriage returns deleted. */
  lemma OriginsRoundTrip(url: string)
    requires forall l | l in Split(Remove(url, '\r'), '\n') :: l != ""
    ensures Join(Origins(Some(url)), '\n') == Remove(url, '\r')
  {
    var text := Remove(url, '\r');
    assert Split(text, '\n')[0] in Split(text, '\n');
    NonEmptyKeepsAll(Split(text, '\n'));
    JoinSplit(text, '\n');
  }

  /** The origins of any setting: the non-empty lines of the setting with
      its carriage returns deleted (an empty setting lists none). */
  lemma OriginsText(text: string)
    ensures Origins(Some(text)) == NonEmpty(Split(Remove(text, '\r'), '\n'))
  {
    if text == "" {
      assert Split("", '\n') == [""];
    }
  }

  /** A setting made of two parts at a line feed lists the origins of the
      first part, then those of the second: lines break exactly at line
      feeds, whatever the parts hold. */
  lemma OriginsAppend(u: string, v: string)
    ensures Origins(Some(u + "\n" + v)) == Origins(Some(u)) + Origins(Some(v))
  {
    var a, b := Remove(u, '\r'), Remove(v, '\r');
    OriginsText(u);
    OriginsText(v);
    OriginsText(u + "\n" + v);
    RemoveAround(u, v);
    SplitAppend(a, '\n', b);
    NonEmptyAppend(Split(a, '\n'), Split(b, '\n'));
  }

  /** Deleting carriage returns keeps a line feed between two parts. */
  lemma RemoveAround(u: string, v: string)
    ensures Remove(u + "\n" + v, '\r') == Remove(u, '\r') + ['\n'] + Remove(v, '\r')
  {
    assert u + "\n" + v == u + ("\n" + v);
    RemoveAppend(u, "\n" + v, '\r');
    RemoveAppend("\n", v, '\r');
    assert Remove("\n", '\r') == "\n";
  }

  /** One line, without a line feed, lists itself minus its carriage
      returns, or nothing when that leaves it empty (a blank line). */
  lemma OriginsOfLine(line: string)
    requires '\n' !in line
    ensures Origins(Some(line)) == (var t := Remove(line, '\r'); if t == "" then [] else [t])
  {
    var t := Remove(line, '\r');
    OriginsText(line);
    assert '\n' !in t;
    assert Split(t, '\n') == [t];
  }

  /** Dropping empty pieces distributes over concatenation. */
  lemma {:induction false} NonEmptyAppend(x: seq<string>, y: seq<string>)
    ensures NonEmpty(x + y) == NonEmpty(x) + NonEmpty(y)
  {
    if |x| == 0 {
      assert x + y == y;
    } else {
      assert (x + y)[0] == x[0] && (x + y)[1..] == x[1..] + y;
      NonEmptyAppend(x[1..], y);
    }
  }

  /** Dropping empty pieces from pieces that are all non-empty keeps them all. */
  lemma {:induction false} NonEmptyKeepsAll(parts: seq<string>)
    requires forall p | p in parts :: p != ""
    ensures NonEmpty(parts) == parts
  {
    if |parts| > 0 {
      assert parts[0] in parts;
      assert forall p | p in parts[1..] :: p in parts;
      NonEmptyKeepsAll(parts[1..]);
    }
  }

  /** The repository list of the multi-repository server: one entry per
      listed origin, in order, all sharing the one secret, all in database
      mode and with no cached token. */
  function Repositories(url: Option<string>, secret: string): (repos: seq<Repository>)
    ensures |repos| == |Origins(url)|
    ensures forall i | 0 <= i < |repos| :: repos[i].url == Origins(url)[i]
    ensures forall r | r in repos ::
      && r.url != "" && '\n' !in r.url && '\r' !in r.url
      && r.secret == secret && r.useDatabase && r.token == ""
  {
    var lines := Origins(url);
    seq(|lines|, i requires 0 <= i < |lines| => Repository(lines[i], secret, true, ""))
  }

  /** The one repository of the single-repository server: the `url` setting
      is taken whole, without any line splitting. */
  function SingleRepository(url: Option<string>, account: Option<string>, encode: string -> string): (r: Repository)
    ensures Truthy(url) ==> r.url == url.value
    ensures r.url == "" <==> !Truthy(url)
    ensures r.secret == SecretOf(account, encode)
    ensures r.useDatabase && r.token == ""
  {
    Repository(if Truthy(url) then url.value else "", SecretOf(account, encode), true, "")
  }

  /** The database name of an origin: slashes become hyphens, then dots
      become underscores. */
  function DatabaseName(url: string): (name: string)
    ensures |name| == |url|
    ensures '/' !in name && '.' !in name
    ensures forall i | 0 <= i < |url| ::
      name[i] == (if url[i] == '/' then '-' else if url[i] == '.' then '_' else url[i])
  {
    ReplaceAll(ReplaceAll(url, '/', '-'), '.', '_')
  }

  /** Mangling an already mangled name changes nothing. */
  lemma DatabaseNameIdempotent(url: string)
    ensures DatabaseName(DatabaseName(url)) == DatabaseName(url)
  {
  }

  /** Distinct origins can share a database: the mangling is not injective. */
  lemma DatabaseNameCollides()
    ensures DatabaseName("a/b.c") == DatabaseName("a-b_c")
  {
  }

  /** Characters that JavaScript's `parseInt` skips before a number: the
      white space and line terminators of ECMAScript, including every
      Unicode space separator. */
  predicate IsSpace(c: char) {
    || c in {' ', '\t', '\n', '\r', '\U{000B}', '\U{000C}', '\U{00A0}', '\U{FEFF}', '\U{2028}', '\U{2029}'}
    || c in {'\U{1680}', '\U{202F}', '\U{205F}', '\U{3000}'}
    || '\U{2000}' <= c <= '\U{200A}'
  }

  predicate IsDigit(c: char) {
    '0' <= c <= '9'
  }

  /** `s` without its leading white space. */
  function TrimStart(s: string): (r: string)
    ensures |r| <= |s| && r == s[|s| - |r|..]
    ensures |r| > 0 ==> !IsSpace(r[0])
  {
    if |s| > 0 && IsSpace(s[0]) then TrimStart(s[1..]) else s
  }

  /** The longest prefix of `s` made of decimal digits. */
  function DigitPrefix(s: string): (d: string)
    ensures d <= s
    ensures forall i | 0 <= i < |d| :: IsDigit(d[i])
    ensures |d| < |s| ==> !IsDigit(s[|d|])
  {
    if |s| > 0 && IsDigit(s[0]) then [s[0]] + DigitPrefix(s[1..]) else ""
  }

  /** The value of one decimal digit. */
  function DigitValue(c: char): (v: nat)
    requires IsDigit(c)
    ensures v < 10
  {
    c as int - '0' as int
  }

  /** The value of a string of decimal digits. */
  function DigitsValue(d: string): nat
    requires forall i | 0 <= i < |d| :: IsDigit(d[i])
  {
    if |d| == 0 then 0
    else DigitsValue(d[..|d| - 1]) * 10 + DigitValue(d[|d| - 1])
  }

  /** `parseInt(s)` with radix 10: white space, an optional sign, then the
      longest run of digits; no digits at all is `NaN`, modelled as None. */
  function ParseInt(s: string): Option<int>
  {
    ParseSigned(TrimStart(s))
  }

  /** `parseInt` after the white space: an optional sign, then the digits. */
  function ParseSigned(t: string): Option<int>
  {
    var negative := |t| > 0 && t[0] == '-';
    var rest := if |t| > 0 && (t[0] == '-' || t[0] == '+') then t[1..] else t;
    var d := DigitPrefix(rest);
    if d == "" then None
    else
      var v: int := DigitsValue(d);
      Some(if negative then -v else v)
  }

  /** The zero-based repository index of the `repo` query parameter:
      `(parseInt(repo) || 1) - 1`. Zero and `NaN` both fall back to 1, so the
      index is never -1. */
  function RepoIndex(repo: Option<string>): (id: int)
    ensures id != -1
    ensures repo.None? ==> id == 0
    ensures repo.Some? && ParseInt(repo.value).None? ==> id == 0
  {
    var n := if repo.Some? then ParseInt(repo.value) else None;
    (if n.Some? && n.value != 0 then n.value else 1) - 1
  }

  /** `repositories[id]`: the entry, or nothing when the index is out of range. */
  function Select(repos: seq<Repository>, repo: Option<string>): (r: Option<Repository>)
    ensures r.Some? <==> 0 <= RepoIndex(repo) < |repos|
    ensures r.Some? ==> r.value == repos[RepoIndex(repo)]
  {
    var id := RepoIndex(repo);
    if 0 <= id < |repos| then Some(repos[id]) else None
  }

  /** `?repo=n` picks the n-th repository (one-based) whenever there is one. */
  lemma SelectNth(repos: seq<Repository>, n: nat)
    requires 1 <= n <= |repos|
    ensures Select(repos, Some(Decimal(n))) == Some(repos[n - 1])
  {
    RepoIndexDecimal(n);
  }

  /** Without `?repo=` the first repository is picked, if there is one. */
  lemma SelectDefault(repos: seq<Repository>)
    ensures Select(repos, None) == if |repos| > 0 then Some(repos[0]) else None
  {
  }

  /** The decimal numeral of `n`, without sign or leading zeros. */
  function Decimal(n: nat): (s: string)
    ensures |s| > 0
    ensures forall i | 0 <= i < |s| :: IsDigit(s[i])
  {
    var last := ['0' + (n % 10) as char];
    if n < 10 then last else Decimal(n / 10) + last
  }

  /** Reading a numeral back gives its number. */
  lemma {:induction false} DigitsValueDecimal(n: nat)
    ensures DigitsValue(Decimal(n)) == n
  {
    if n >= 10 {
      var s := Decimal(n);
      assert s[..|s| - 1] == Decimal(n / 10);
      DigitsValueDecimal(n / 10);
    }
  }

  /** `parseInt` of a numeral is its number. */
  lemma ParseIntDecimal(n: nat)
    ensures ParseInt(Decimal(n)) == Some(n)
  {
    ParseIntDigits(Decimal(n));
    DigitsValueDecimal(n);
  }

  /** `parseInt` of a non-empty run of digits is the run's value. */
  lemma ParseIntDigits(s: string)
    requires |s| > 0
    requires forall i | 0 <= i < |s| :: IsDigit(s[i])
    ensures ParseInt(s) == Some(DigitsValue(s) as int)
  {
    NothingToTrim(s);
    ParseSignedDigits(s);
  }

  /** A string starting with a digit has no leading white space. */
  lemma NothingToTrim(s: string)
    requires |s| > 0 && IsDigit(s[0])
    ensures TrimStart(s) == s
  {
    assert !IsSpace(s[0]);
  }

  /** After the white space, a run of digits without a sign is its value. */
  lemma ParseSignedDigits(t: string)
    requires |t| > 0
    requires forall i | 0 <= i < |t| :: IsDigit(t[i])
    ensures ParseSigned(t) == Some(DigitsValue(t) as int)
  {
    assert t[0] != '-' && t[0] != '+';
    DigitPrefixAll(t);
  }

  /** The digit prefix of a string of digits is the whole string. */
  lemma {:induction false} DigitPrefixAll(s: string)
    requires forall i | 0 <= i < |s| :: IsDigit(s[i])
    ensures DigitPrefix(s) == s
  {
    if |s| > 0 {
      DigitPrefixAll(s[1..]);
    }
  }

  /** `?repo=n` selects the n-th repository (one-based); `?repo=0` and an
      absent parameter select the first. */
  lemma RepoIndexDecimal(n: nat)
    ensures RepoIndex(Some(Decimal(n))) == if n == 0 then 0 else n - 1
    ensures RepoIndex(None) == 0
  {
    ParseIntDecimal(n);
  }

  /** A negative `repo` gives an index below zero, which selects nothing. */
  lemma NegativeRepoSelectsNothing(repos: seq<Repository>, n: nat)
    requires n > 0
    ensures Select(repos, Some("-" + Decimal(n))) == None
  {
    var s := "-" + Decimal(n);
    assert !IsSpace(s[0]);
    assert TrimStart(s) == s;
    assert s[1..] == Decimal(n);
    DigitPrefixAll(Decimal(n));
    DigitsValueDecimal(n);
  }
}
