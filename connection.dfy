/** The `Connection` of skoda/skoda.py without its transport: the per-vehicle
    state dictionary and how a poll rebuilds it, the flattening of the stored
    status tree into the parsed id map, the `$vin` URL templating and the
    bytes handed to the security-PIN digest. Every server response is a
    parameter (`Outcome<Json>`: the decoded body, or the exception the
    request raised). */
module SkodaConnection {
  import opened Python
  import opened SkodaVehicle

  const BaseSession := "https://msg.volkswagen.de"

  // ---------------------------------------------------------------------
  // `_make_url`

  /** The replacement text `re.sub` inserts for each match, after it has read
      the replacement as a template (the template parser of Python 3.11 and
      later, for a pattern with no groups whose match is always `$vin`).
      None when the template parser raises. A backslash starts an escape:
      `\\` and `\a \b \f \n \r \t \v` stand for one character; `\0` and a
      three-digit octal escape stand for the character with that code; a
      group reference `\1`..`\99` or `\g<name>` raises, except `\g<0>`, the
      whole match; another letter raises; any other character keeps its
      backslash; a backslash at the very end raises. */
  function Expand(repl: string): (r: Option<string>)
    decreases |repl|
  {
    if repl == [] then Some([])
    else if repl[0] != '\\' then Prefixed([repl[0]], Expand(repl[1..]))
    else if |repl| == 1 then None
    else
      var c := repl[1];
      if c == 'g' then
        var z := Zeros(repl[2..]);
        if |repl| > 3 + z && repl[2] == '<' && z > 0 && repl[3 + z] == '>' then
          Prefixed("$vin", Expand(repl[4 + z..]))
        else None
      else if c == '0' then
        if |repl| > 2 && IsOctal(repl[2]) then
          if |repl| > 3 && IsOctal(repl[3]) then
            Prefixed([(8 * OctalValue(repl[2]) + OctalValue(repl[3])) as char], Expand(repl[4..]))
          else Prefixed([OctalValue(repl[2]) as char], Expand(repl[3..]))
        else Prefixed([0 as char], Expand(repl[2..]))
      else if '1' <= c <= '9' then
        if |repl| > 3 && IsOctal(c) && IsOctal(repl[2]) && IsOctal(repl[3]) then
          var v := 64 * OctalValue(c) + 8 * OctalValue(repl[2]) + OctalValue(repl[3]);
          if v > 255 then None else Prefixed([v as char], Expand(repl[4..]))
        else None
      else if EscapeCode(c).Some? then Prefixed([EscapeCode(c).value as char], Expand(repl[2..]))
      else if IsAsciiLetter(c) then None
      else Prefixed(['\\', c], Expand(repl[2..]))
  }

  /** `p` followed by the rest of an expansion, unless the rest fails. */
  function Prefixed(p: string, rest: Option<string>): (r: Option<string>)
    ensures r.Some? <==> rest.Some?
    ensures r.Some? ==> r.value == p + rest.value
  {
    if rest.None? then None else Some(p + rest.value)
  }

  /** The number of `0`s that start `s` after its first character (the name
      of a `\g<...>` reference that opens at `s[0]`). */
  function Zeros(s: string): (n: nat)
    ensures n <= |s| && (|s| > 0 ==> n < |s|)
    ensures forall i :: 1 <= i <= n ==> s[i] == '0'
    ensures |s| > 0 && n + 1 < |s| ==> s[n + 1] != '0'
    decreases |s|
  {
    if |s| < 2 || s[1] != '0' then 0 else 1 + Zeros(s[1..])
  }

  predicate IsOctal(c: char) { '0' <= c <= '7' }

  function OctalValue(c: char): nat
    requires IsOctal(c)
  {
    c as int - '0' as int
  }

  predicate IsAsciiLetter(c: char) { 'a' <= c <= 'z' || 'A' <= c <= 'Z' }

  /** The one-character escapes of a replacement template and their codes. */
  function EscapeCode(c: char): Option<nat> {
    match c
    case 'a' => Some(7)
    case 'b' => Some(8)
    case 'f' => Some(12)
    case 'n' => Some(10)
    case 'r' => Some(13)
    case 't' => Some(9)
    case 'v' => Some(11)
    case '\\' => Some(92)
    case _ => None
  }

  predicate NoBackslash(s: string) {
    forall i :: 0 <= i < |s| ==> s[i] != '\\'
  }

  /** A replacement without a backslash is inserted literally. */
  lemma {:induction false} ExpandLiteral(repl: string)
    requires NoBackslash(repl)
    ensures Expand(repl) == Some(repl)
    decreases |repl|
  {
    if repl != [] {
      ExpandLiteral(repl[1..]);
      assert [repl[0]] + repl[1..] == repl;
    }
  }

  /** How a few replacements read as templates: an escaped newline becomes
      the character, a group reference or an unknown letter escape raises,
      `\g<0>` is the match itself and an escaped `.` keeps its backslash. */
  lemma ExpandExamples()
    ensures Expand("a\\nb") == Some("a\nb")
    ensures Expand("\\1") == None && Expand("\\q") == None && Expand("x\\") == None
    ensures Expand("\\g<0>") == Some("$vin")
    ensures Expand("\\101") == Some("A") && Expand("\\400") == None
    ensures Expand("\\.") == Some("\\.")
  {
    assert Expand("") == Some("");
    assert "b"[0] == 'b' && "b"[1..] == "";
    assert Expand("b") == Prefixed("b", Expand(""));
    assert "\\nb"[1] == 'n' && "\\nb"[2..] == "b";
    assert Expand("\\nb") == Prefixed("\n", Expand("b"));
    assert "a\\nb"[0] == 'a' && "a\\nb"[1..] == "\\nb";
    assert Expand("a\\nb") == Prefixed("a", Expand("\\nb"));
    assert "\\"[0] == '\\';
    assert "x\\"[1..] == "\\";
    assert Expand("x\\") == Prefixed("x", Expand("\\"));
    assert "\\1"[0] == '\\' && "\\1"[1] == '1' && |"\\1"| == 2;
    assert "\\g<0>"[2..] == "<0>" && "<0>"[1..] == "0>";
    assert Zeros("<0>") == 1;
    assert "\\g<0>"[1] == 'g' && "\\g<0>"[2] == '<' && "\\g<0>"[4] == '>' && "\\g<0>"[5..] == "";
    assert Expand("\\g<0>") == Prefixed("$vin", Expand(""));
    assert "\\101"[1] == '1' && "\\101"[2] == '0' && "\\101"[3] == '1' && "\\101"[4..] == "";
    assert Expand("\\101") == Prefixed([65 as char], Expand(""));
    assert "\\400"[1] == '4' && "\\400"[2] == '0' && "\\400"[3] == '0';
    assert "\\."[1] == '.' && "\\."[2..] == "";
    assert Expand("\\.") == Prefixed("\\.", Expand(""));
    assert "b" + "" == "b" && "\n" + "b" == "\nb" && "a" + "\nb" == "a\nb";
    assert "$vin" + "" == "$vin" && [65 as char] + "" == "A" && "\\." + "" == "\\.";
    assert |"\\"| == 1 && |"\\400"| == 4;
  }

  /** Every `$vin` of `s`, scanning left to right, replaced by `text`; the
      inserted text is never rescanned. */
  function Substitute(s: string, text: string): string
    decreases |s|
  {
    if |s| == 0 then []
    else if AtVin(s) then text + Substitute(s[4..], text)
    else [s[0]] + Substitute(s[1..], text)
  }

  /** `s` starts with the token `$vin`. */
  predicate AtVin(s: string) {
    |s| >= 4 && s[0] == '$' && s[1] == 'v' && s[2] == 'i' && s[3] == 'n'
  }

  /** `re.sub("\$vin", vin, s)`: the vin is read as a replacement template
      first (re.error, modelled as OtherError, when that fails, whether or
      not `s` holds a `$vin`), then every `$vin` is replaced by its
      expansion. */
  function ReplaceVin(s: string, vin: string): (r: Outcome<string>)
    ensures r.Ok? <==> Expand(vin).Some?
    ensures r.Raise? ==> r.exc == OtherError
  {
    match Expand(vin)
    case None => Raise(OtherError)
    case Some(text) => Ok(Substitute(s, text))
  }

  /** The pieces of a template, joined by `sep`. */
  function Join(parts: seq<string>, sep: string): string
    decreases |parts|
  {
    if |parts| == 0 then []
    else if |parts| == 1 then parts[0]
    else parts[0] + sep + Join(parts[1..], sep)
  }

  predicate NoDollar(s: string) {
    forall i :: 0 <= i < |s| ==> s[i] != '$'
  }

  /** Text without a `$` passes through the substitution untouched. */
  lemma {:induction false} SubstituteSkipsPlainText(p: string, t: string, text: string)
    requires NoDollar(p)
    ensures Substitute(p + t, text) == p + Substitute(t, text)
    decreases |p|
  {
    if |p| > 0 {
      var s := p + t;
      assert s[0] == p[0] && p[0] != '$';
      assert s[1..] == p[1..] + t;
      SubstituteSkipsPlainText(p[1..], t, text);
      assert [p[0]] + p[1..] == p;
    } else {
      assert p + t == t;
    }
  }

  /** A url without a `$` comes back unchanged, unless the vin is a
      replacement template that does not parse: `re.sub` parses it even
      when there is nothing to replace. */
  lemma ReplaceVinSkipsPlainText(s: string, vin: string)
    requires NoDollar(s)
    ensures Expand(vin).Some? ==> ReplaceVin(s, vin) == Ok(s)
    ensures Expand(vin).None? ==> ReplaceVin(s, vin) == Raise(OtherError)
  {
    if Expand(vin).Some? {
      SubstituteSkipsPlainText(s, [], Expand(vin).value);
      assert s + [] == s;
    }
  }

  /** Every `$vin` of a template is replaced by the vin's expansion, and
      nothing else changes; a vin without a backslash is inserted as it is. */
  lemma {:induction false} ReplaceVinFillsTemplate(parts: seq<string>, vin: string)
    requires forall i :: 0 <= i < |parts| ==> NoDollar(parts[i])
    ensures Expand(vin).Some? ==> ReplaceVin(Join(parts, "$vin"), vin) == Ok(Join(parts, Expand(vin).value))
    ensures NoBackslash(vin) ==> ReplaceVin(Join(parts, "$vin"), vin) == Ok(Join(parts, vin))
    ensures Expand(vin).None? ==> ReplaceVin(Join(parts, "$vin"), vin) == Raise(OtherError)
  {
    if NoBackslash(vin) {
      ExpandLiteral(vin);
    }
    if Expand(vin).Some? {
      SubstituteFillsTemplate(parts, Expand(vin).value);
    }
  }

  lemma {:induction false} SubstituteFillsTemplate(parts: seq<string>, text: string)
    requires forall i :: 0 <= i < |parts| ==> NoDollar(parts[i])
    ensures Substitute(Join(parts, "$vin"), text) == Join(parts, text)
    decreases |parts|
  {
    if |parts| == 1 {
      SubstituteSkipsPlainText(parts[0], [], text);
      assert parts[0] + [] == parts[0];
    } else if |parts| > 1 {
      var rest := Join(parts[1..], "$vin");
      assert Join(parts, "$vin") == parts[0] + ("$vin" + rest);
      SubstituteSkipsPlainText(parts[0], "$vin" + rest, text);
      assert ("$vin" + rest)[4..] == rest;
      SubstituteFillsTemplate(parts[1..], text);
    }
  }

  /** A character `urlsplit` accepts in a scheme. */
  predicate IsSchemeChar(c: char) {
    IsAsciiLetter(c) || '0' <= c <= '9' || c == '+' || c == '-' || c == '.'
  }

  /** Where `urlsplit` (Python 3.11 and later) ends a scheme: at the first
      `:`, when the text before it is non-empty, starts with an ASCII letter
      and holds only scheme characters. None when the reference has no
      scheme. */
  function SchemeColon(url: string): (r: Option<nat>)
    ensures r.Some? ==> 0 < r.value < |url| && url[r.value] == ':' && IsAsciiLetter(url[0])
    ensures r.Some? ==> forall i :: 0 <= i < r.value ==> IsSchemeChar(url[i])
  {
    if |url| > 0 && IsAsciiLetter(url[0]) then SchemeRun(url, 1) else None
  }

  function SchemeRun(url: string, i: nat): (r: Option<nat>)
    requires 0 < i <= |url|
    requires forall k :: 0 <= k < i ==> IsSchemeChar(url[k])
    ensures r.Some? ==> i <= r.value < |url| && url[r.value] == ':'
    ensures r.Some? ==> forall k :: 0 <= k < r.value ==> IsSchemeChar(url[k])
    decreases |url| - i
  {
    if i == |url| then None
    else if url[i] == ':' then Some(i)
    else if IsSchemeChar(url[i]) then SchemeRun(url, i + 1)
    else None
  }

  /** A reference `urljoin` resolves against the https base: one with no
      scheme, or with the base's own scheme `https` in any case. */
  predicate OnBaseScheme(url: string) {
    SchemeColon(url).None? || Lower(url[..SchemeColon(url).value]) == "https"
  }

  /** Where `urlsplit` ends the authority of a network-path reference: at
      the first `/`, `?` or `#` from position `i` on, or at the end. */
  function AuthorityEnd(url: string, i: nat): (e: nat)
    requires i <= |url|
    ensures i <= e <= |url|
    ensures e < |url| ==> url[e] == '/' || url[e] == '?' || url[e] == '#'
    ensures forall k :: i <= k < e ==> url[k] != '/' && url[k] != '?' && url[k] != '#'
    decreases |url| - i
  {
    if i == |url| || url[i] == '/' || url[i] == '?' || url[i] == '#' then i else AuthorityEnd(url, i + 1)
  }

  /** The authority (`netloc`) of a reference that starts with `//`. */
  function Authority(url: string): string
    requires StartsWith(url, "//")
  {
    url[2..AuthorityEnd(url, 2)]
  }

  /** An authority holding a `[` without a `]`, or the other way round,
      which `urlsplit` rejects with ValueError ("Invalid IPv6 URL"). */
  predicate UnbalancedBrackets(netloc: string) {
    ('[' in netloc) != (']' in netloc)
  }

  /** The reference after its scheme and colon, or all of it when it has no
      scheme. */
  function AfterScheme(url: string): string {
    match SchemeColon(url)
    case None => url
    case Some(k) => url[k + 1..]
  }

  /** `urlsplit` raises on the reference, whatever its scheme: it has an
      authority with unbalanced brackets. */
  predicate SplitRejects(url: string) {
    StartsWith(AfterScheme(url), "//") && UnbalancedBrackets(Authority(AfterScheme(url)))
  }

  /** `urljoin(base, url)` for an https base without a path. `urlsplit`
      raises ValueError first when the reference has an authority with
      unbalanced brackets. Otherwise a reference with another scheme is
      returned as it is, and one with the scheme `https` is resolved like the
      rest of it after the colon. A network-path reference with an authority
      takes the https scheme; one with an empty authority keeps the base
      host, as does every other reference, and an empty reference gives the
      base. */
  function UrlJoin(base: string, url: string): (r: Outcome<string>)
    ensures r.Raise? <==> SplitRejects(url)
    ensures r.Raise? ==> r.exc == ValueError
    ensures !OnBaseScheme(url) && !SplitRejects(url) ==> r == Ok(url)
    ensures url == [] ==> r == Ok(base)
    ensures SchemeColon(url).None? && !StartsWith(url, "//") ==> r.Ok? && StartsWith(r.value, base)
    ensures SchemeColon(url).None? && |url| > 0 && !StartsWith(url, "//") && url[0] != '/' && url[0] != '?' && url[0] != '#' ==>
      r == Ok(base + "/" + url)
    ensures SchemeColon(url).None? && StartsWith(url, "//") && Authority(url) == [] ==> r == Ok(base + url[2..])
    ensures SchemeColon(url).None? && StartsWith(url, "//") && Authority(url) != [] && !UnbalancedBrackets(Authority(url)) ==>
      r == Ok("https:" + url)
    ensures StartsWith(base, "https://") && OnBaseScheme(url) && r.Ok? ==> StartsWith(r.value, "https://")
  {
    match SchemeColon(url)
    case None => JoinOnBase(base, url)
    case Some(k) =>
      if Lower(url[..k]) == "https" then JoinOnBase(base, url[k + 1..])
      else if SplitRejects(url) then Raise(ValueError)
      else Ok(url)
  }

  /** The part of `urljoin` for a reference without a scheme. */
  function JoinOnBase(base: string, url: string): (r: Outcome<string>)
    ensures r.Raise? <==> StartsWith(url, "//") && UnbalancedBrackets(Authority(url))
    ensures StartsWith(base, "https://") && r.Ok? ==> StartsWith(r.value, "https://")
  {
    if StartsWith(url, "//") then
      var netloc := Authority(url);
      if UnbalancedBrackets(netloc) then Raise(ValueError)
      else if netloc == [] then Ok(OnHost(base, url[2..]))
      else Ok("https:" + url)
    else Ok(OnHost(base, url))
  }

  /** A path, query or fragment resolved on the base host: an empty one
      gives the base, and a relative path is joined to it with one slash. */
  function OnHost(base: string, path: string): (r: string)
    ensures StartsWith(r, base)
    ensures |path| > 0 && path[0] != '/' && path[0] != '?' && path[0] != '#' ==> r == base + "/" + path
    ensures (path == [] || path[0] == '/' || path[0] == '?' || path[0] == '#') ==> r == base + path
  {
    if path == [] then base
    else if path[0] == '/' || path[0] == '?' || path[0] == '#' then base + path
    else base + "/" + path
  }

  /** `urljoin` against the base host, on an empty authority, an authority
      and an authority with a lone `[`. */
  lemma UrlJoinExamples()
    ensures UrlJoin(BaseSession, "//") == Ok(BaseSession)
    ensures UrlJoin(BaseSession, "///x") == Ok(BaseSession + "/x")
    ensures UrlJoin(BaseSession, "//[x") == Raise(ValueError)
  {
    assert SchemeColon("//").None? && SchemeColon("///x").None? && SchemeColon("//[x").None?;
    assert AuthorityEnd("//", 2) == 2 && "//"[2..] == [];
    assert AuthorityEnd("///x", 2) == 2 && "///x"[2..] == "/x";
    assert "//[x"[2] == '[' && "//[x"[3] == 'x';
    assert AuthorityEnd("//[x", 2) == 4 && Authority("//[x") == "[x";
    assert '[' in "[x" && ']' !in "[x";
  }

  /** `_make_url`: the endpoint with the vin filled in, used as it is when it
      contains `://`, otherwise joined onto the base host. Raises when the
      vin is not a valid replacement template, and raises ValueError when
      `urljoin` rejects the filled-in endpoint. */
  function MakeUrl(ref: string, vin: string): (r: Outcome<string>)
    ensures r.Raise? <==>
      (Expand(vin).None? || (!Contains(ReplaceVin(ref, vin).value, "://") && SplitRejects(ReplaceVin(ref, vin).value)))
    ensures r.Raise? ==> r.exc == (if Expand(vin).None? then OtherError else ValueError)
    ensures r.Ok? && Contains(ReplaceVin(ref, vin).value, "://") ==> r == ReplaceVin(ref, vin)
    ensures r.Ok? && !Contains(ReplaceVin(ref, vin).value, "://") ==> r == UrlJoin(BaseSession, ReplaceVin(ref, vin).value)
  {
    var replaced :- ReplaceVin(ref, vin);
    if Contains(replaced, "://") then Ok(replaced) else UrlJoin(BaseSession, replaced)
  }

  /** A url `_make_url` builds names a scheme exactly when the filled-in
      endpoint already contained `://` or is resolved against the base: an
      endpoint such as `mailto:x` comes back as it is, without `://`. */
  lemma MakeUrlIsAbsolute(ref: string, vin: string)
    requires MakeUrl(ref, vin).Ok?
    ensures Contains(MakeUrl(ref, vin).value, "://") <==>
      Contains(ReplaceVin(ref, vin).value, "://") || OnBaseScheme(ReplaceVin(ref, vin).value)
  {
    var replaced := ReplaceVin(ref, vin).value;
    if !Contains(replaced, "://") && OnBaseScheme(replaced) {
      var r := UrlJoin(BaseSession, replaced).value;
      assert StartsWith(r, "https://");
      assert r[..8] == "https://";
      assert r[5..8] == "://";
      ContainsAt(r, "://", 5);
    }
  }

  /** An endpoint whose filled-in form names another scheme and has no
      `://` comes back as it is, so it names no host at all. */
  lemma MakeUrlKeepsOtherScheme(ref: string, vin: string)
    requires ReplaceVin(ref, vin).Ok?
    requires !Contains(ReplaceVin(ref, vin).value, "://") && !OnBaseScheme(ReplaceVin(ref, vin).value)
    ensures MakeUrl(ref, vin) == ReplaceVin(ref, vin)
  {
    var u := ReplaceVin(ref, vin).value;
    var k := SchemeColon(u).value;
    if StartsWith(u[k + 1..], "//") {
      var rest := u[k + 1..];
      assert rest[..2] == "//";
      assert rest[0] == '/' && rest[1] == '/';
      assert u[k] == ':' && u[k + 1] == rest[0] && u[k + 2] == rest[1];
      assert u[k..k + 3] == "://";
      ContainsAt(u, "://", k);
    }
  }

  /** `mailto:x` is such an endpoint: its scheme is `mailto`. */
  lemma MailtoKeepsItsScheme()
    ensures MakeUrl("$vin", "mailto:x") == Ok("mailto:x")
    ensures !Contains("mailto:x", "://")
  {
    MailtoFilledIn();
    MailtoScheme();
    NoSlashNoSeparator("mailto:x");
    MakeUrlKeepsOtherScheme("$vin", "mailto:x");
  }

  lemma MailtoFilledIn()
    ensures ReplaceVin("$vin", "mailto:x") == Ok("mailto:x")
  {
    var u := "mailto:x";
    ExpandLiteral(u);
    assert AtVin("$vin") && "$vin"[4..] == [];
    assert Substitute("$vin", u) == u + Substitute("", u);
    assert u + [] == u;
  }

  lemma MailtoScheme()
    ensures !OnBaseScheme("mailto:x")
  {
    var u := "mailto:x";
    assert SchemeRun(u, 6) == Some(6);
    assert SchemeRun(u, 5) == Some(6);
    assert SchemeRun(u, 4) == Some(6);
    assert SchemeRun(u, 3) == Some(6);
    assert SchemeRun(u, 2) == Some(6);
    assert SchemeColon(u) == Some(6);
    assert |Lower(u[..6])| == 6;
  }

  lemma {:induction false} NoSlashNoSeparator(s: string)
    requires forall i :: 0 <= i < |s| ==> s[i] != '/'
    ensures !Contains(s, "://")
    decreases |s|
  {
    if |s| > 0 {
      assert !StartsWith(s, "://") by {
        if |s| >= 3 { assert s[1] != "://"[1]; }
      }
      NoSlashNoSeparator(s[1..]);
    }
  }

  predicate NoColon(s: string) {
    forall i :: 0 <= i < |s| ==> s[i] != ':'
  }

  lemma {:induction false} NoColonNoScheme(s: string)
    requires NoColon(s)
    ensures !Contains(s, "://")
    ensures SchemeColon(s).None?
    decreases |s|
  {
    if |s| > 0 {
      assert s[0] != "://"[0];
      NoColonNoScheme(s[1..]);
    }
  }

  /** A reference `urljoin` gives back character for character: nothing it
      strips (a control character or a space), no dot (so no `.` or `..`
      segment), no empty segment between two slashes, no fragment and no
      parameters, and no empty query. */
  predicate PlainReference(s: string) {
    (forall i :: 0 <= i < |s| ==> s[i] > ' ' && s[i] != '.' && s[i] != '#' && s[i] != ';') &&
    (forall i :: 0 <= i < |s| - 1 ==> !(s[i] == '/' && s[i + 1] == '/')) &&
    (|s| > 0 ==> s[|s| - 1] != '?')
  }

  /** A relative endpoint with one `$vin` becomes the base host, a slash, the
      endpoint and the vin's expansion in place of the token, when the
      filled-in reference has nothing `urljoin` would normalise. */
  lemma MakeUrlOfRelativeEndpoint(before: string, after: string, vin: string)
    requires Expand(vin).Some?
    requires NoDollar(before) && NoDollar(after)
    requires NoColon(before + Expand(vin).value + after)
    requires PlainReference(before + Expand(vin).value + after)
    requires |before| > 0 && before[0] != '/' && before[0] != '?'
    ensures MakeUrl(before + "$vin" + after, vin) == Ok(BaseSession + "/" + before + Expand(vin).value + after)
  {
    var r := before + Expand(vin).value + after;
    assert r[0] == before[0] && r[0] != '#';
    RelativeEndpoint(before, after, vin);
  }

  lemma RelativeEndpoint(before: string, after: string, vin: string)
    requires Expand(vin).Some? && NoDollar(before) && NoDollar(after)
    requires NoColon(before + Expand(vin).value + after)
    requires |before| > 0 && before[0] != '/' && before[0] != '?' && before[0] != '#'
    ensures MakeUrl(before + "$vin" + after, vin) == Ok(BaseSession + "/" + before + Expand(vin).value + after)
  {
    var e := Expand(vin).value;
    var r := before + e + after;
    FilledInEndpoint(before, after, vin);
    assert r[0] == before[0];
    JoinRelativePath(r);
    MakeUrlOfReplaced(before + "$vin" + after, vin, r);
    ConcatAssoc(BaseSession + "/", before, e, after);
  }

  lemma ConcatAssoc(a: string, b: string, c: string, d: string)
    ensures a + (b + c + d) == a + b + c + d
  {
  }

  lemma FilledInEndpoint(before: string, after: string, vin: string)
    requires Expand(vin).Some? && NoDollar(before) && NoDollar(after)
    ensures ReplaceVin(before + "$vin" + after, vin) == Ok(before + Expand(vin).value + after)
  {
    ReplaceVinFillsTemplate([before, after], vin);
    assert Join([before, after], "$vin") == before + "$vin" + after;
    assert Join([before, after], Expand(vin).value) == before + Expand(vin).value + after;
  }

  /** Once the vin is in place, a reference without `://` is what `urljoin`
      makes of it. */
  lemma MakeUrlOfReplaced(ref: string, vin: string, r: string)
    requires ReplaceVin(ref, vin) == Ok(r) && !Contains(r, "://")
    ensures MakeUrl(ref, vin) == UrlJoin(BaseSession, r)
  {
  }

  /** A relative path without a colon goes on the base host after a slash. */
  lemma JoinRelativePath(r: string)
    requires NoColon(r) && |r| > 0 && r[0] != '/' && r[0] != '?' && r[0] != '#'
    ensures !Contains(r, "://")
    ensures UrlJoin(BaseSession, r) == Ok(BaseSession + "/" + r)
  {
    NoColonNoScheme(r);
    assert !StartsWith(r, "//");
  }

  /** A character `urljoin` keeps as it is in a path or query. */
  predicate PathChar(c: char) {
    c > ' ' && c != '.' && c != '#' && c != ';' && c != ':'
  }

  /** A run of such characters with no empty segment. */
  predicate PlainPart(s: string) {
    (forall i :: 0 <= i < |s| ==> PathChar(s[i])) &&
    (forall i :: 0 <= i < |s| - 1 ==> !(s[i] == '/' && s[i + 1] == '/'))
  }

  lemma PlainPartsJoin(a: string, b: string)
    requires PlainPart(a) && PlainPart(b)
    requires |a| > 0 && |b| > 0 ==> !(a[|a| - 1] == '/' && b[0] == '/')
    ensures PlainPart(a + b)
  {
    var s := a + b;
    forall i | 0 <= i < |s| - 1 ensures !(s[i] == '/' && s[i + 1] == '/') {
      if i + 1 < |a| {
        assert s[i] == a[i] && s[i + 1] == a[i + 1];
      } else if i + 1 == |a| {
        assert s[i] == a[i] && s[i + 1] == b[0];
      } else {
        assert s[i] == b[i - |a|] && s[i + 1] == b[i + 1 - |a|];
      }
    }
  }

  lemma PlainPartIsPlainReference(s: string)
    requires PlainPart(s) && (|s| > 0 ==> s[|s| - 1] != '?')
    ensures PlainReference(s) && NoColon(s)
  {
  }

  /** An endpoint of the shape the update loop uses (a path with one `$vin`
      and possibly a query, such as `fs-car/bs/vsr/v1/skoda/CZ/vehicles/$vin/status`),
      filled in with a vin of letters and digits, is a reference `urljoin`
      keeps character for character, and becomes an absolute url on the base
      host with the vin in place of the token. */
  lemma EndpointUrl(before: string, after: string, vin: string)
    requires PlainPart(before) && PlainPart(after) && NoDollar(before) && NoDollar(after)
    requires |before| > 0 && before[0] != '/' && before[0] != '?'
    requires |after| == 0 || after[|after| - 1] != '?'
    requires |vin| > 0 && forall i :: 0 <= i < |vin| ==> IsAsciiLetter(vin[i]) || '0' <= vin[i] <= '9'
    ensures PlainReference(before + vin + after)
    ensures MakeUrl(before + "$vin" + after, vin) == Ok(BaseSession + "/" + before + vin + after)
  {
    ExpandLiteral(vin);
    assert PlainPart(vin);
    PlainPartsJoin(before, vin);
    PlainPartsJoin(before + vin, after);
    var r := before + vin + after;
    assert r[|r| - 1] != '?' by {
      if |after| == 0 { assert r[|r| - 1] == vin[|vin| - 1]; }
      else { assert r[|r| - 1] == after[|after| - 1]; }
    }
    PlainPartIsPlainReference(r);
    assert before[0] != '#';
    RelativeEndpoint(before, after, vin);
  }

  /** An absolute url is used as it is once the vin is in place. */
  lemma MakeUrlKeepsAbsolute(ref: string, vin: string)
    requires ReplaceVin(ref, vin).Ok? && Contains(ReplaceVin(ref, vin).value, "://")
    ensures MakeUrl(ref, vin) == ReplaceVin(ref, vin)
  {
  }

  // ---------------------------------------------------------------------
  // The parsed status map (`StoredVehicleDataResponseParsed`)

  /** `for x in j` where each `x` is subscripted with a string next: a list
      yields its items; an empty dictionary or string yields nothing; the
      items of a non-empty dictionary or string are strings, which that
      subscript rejects with TypeError; anything else is not iterable. */
  function Iterate(j: Json): Outcome<seq<Json>>
  {
    match j
    case JList(items) => Ok(items)
    case JObj(m) => if m == map[] then Ok([]) else Raise(TypeError)
    case JStr(s) => if s == [] then Ok([]) else Raise(TypeError)
    case _ => Raise(TypeError)
  }

  /** `[s["field"] for s in blocks]`. */
  function FieldLists(blocks: seq<Json>): (r: Outcome<seq<Json>>)
    ensures r.Ok? ==> |r.value| == |blocks|
    ensures r.Ok? ==> forall i :: 0 <= i < |blocks| ==> Subscript(blocks[i], "field") == Ok(r.value[i])
    decreases |blocks|
  {
    if blocks == [] then Ok([])
    else
      var f :- Subscript(blocks[0], "field");
      var rest :- FieldLists(blocks[1..]);
      Ok([f] + rest)
  }

  /** `[e for f in fields for e in f]`. */
  function Entries(fields: seq<Json>): Outcome<seq<Json>>
    decreases |fields|
  {
    if fields == [] then Ok([])
    else
      var es :- Iterate(fields[0]);
      var rest :- Entries(fields[1..]);
      Ok(es + rest)
  }

  /** `(e["id"], e if "value" in e else "")`; a field id is a string key here. */
  function Pair(e: Json): (r: Outcome<(string, Json)>)
    ensures r.Ok? <==> e.JObj? && "id" in e.fields && e.fields["id"].JStr?
    ensures r.Ok? ==>
      r.value.0 == e.fields["id"].s && r.value.1 == (if "value" in e.fields then e else JStr(""))
  {
    var id :- Subscript(e, "id");
    if id.JStr? then Ok((id.s, if "value" in e.fields then e else JStr("")))
    else Raise(TypeError)
  }

  function Pairs(es: seq<Json>): (r: Outcome<seq<(string, Json)>>)
    ensures r.Ok? <==> forall i :: 0 <= i < |es| ==> Pair(es[i]).Ok?
    ensures r.Ok? ==> |r.value| == |es| && forall i :: 0 <= i < |es| ==> Pair(es[i]) == Ok(r.value[i])
    decreases |es|
  {
    if es == [] then Ok([])
    else
      var p :- Pair(es[0]);
      var rest :- Pairs(es[1..]);
      Ok([p] + rest)
  }

  /** `i` is the last position of `ps` whose key is `ps[i].0`. */
  predicate LastWithKey(ps: seq<(string, Json)>, i: int) {
    0 <= i < |ps| && forall j :: i < j < |ps| ==> ps[j].0 != ps[i].0
  }

  /** `dict(ps)`: each key maps to the value of its last pair. */
  function ToDict(ps: seq<(string, Json)>): map<string, Json>
    decreases |ps|
  {
    if ps == [] then map[] else ToDict(ps[..|ps| - 1])[ps[|ps| - 1].0 := ps[|ps| - 1].1]
  }

  /** `dict(ps)` has exactly the keys of the pairs. */
  lemma {:induction false} ToDictKeys(ps: seq<(string, Json)>, k: string)
    ensures k in ToDict(ps) <==> exists i :: 0 <= i < |ps| && ps[i].0 == k
    decreases |ps|
  {
    if ps != [] {
      var init := ps[..|ps| - 1];
      ToDictKeys(init, k);
      if exists i :: 0 <= i < |init| && init[i].0 == k {
        var i :| 0 <= i < |init| && init[i].0 == k;
        assert ps[i].0 == k;
      }
      if exists i :: 0 <= i < |ps| && ps[i].0 == k {
        var i :| 0 <= i < |ps| && ps[i].0 == k;
        if i < |init| { assert init[i].0 == k; }
      }
    }
  }

  /** A later pair with the same key overwrites an earlier one. */
  lemma {:induction false} ToDictLastWins(ps: seq<(string, Json)>, i: int)
    requires LastWithKey(ps, i)
    ensures ps[i].0 in ToDict(ps) && ToDict(ps)[ps[i].0] == ps[i].1
    decreases |ps|
  {
    if i < |ps| - 1 {
      var init := ps[..|ps| - 1];
      assert LastWithKey(init, i) by {
        forall j | i < j < |init| ensures init[j].0 != init[i].0 {
          assert init[j] == ps[j];
        }
      }
      ToDictLastWins(init, i);
    }
  }

  /** The field entries of every data block of the status response, in order. */
  function FlatEntries(resp: Json): Outcome<seq<Json>> {
    var svdr :- Subscript(resp, StatusKey);
    var vd :- Subscript(svdr, "vehicleData");
    var data :- Subscript(vd, "data");
    var blocks :- Iterate(data);
    var fields :- FieldLists(blocks);
    Entries(fields)
  }

  /** The parsed status map built from a status response. */
  function Flatten(resp: Json): Outcome<map<string, Json>> {
    var es :- FlatEntries(resp);
    var ps :- Pairs(es);
    Ok(ToDict(ps))
  }

  /** The parsed map holds exactly the ids of the field entries; each id maps
      to its last entry when that entry has a "value", and to "" otherwise. */
  lemma FlattenLastEntryWins(resp: Json, es: seq<Json>, i: int)
    requires FlatEntries(resp) == Ok(es) && Flatten(resp).Ok?
    requires 0 <= i < |es|
    ensures es[i].JObj? && "id" in es[i].fields && es[i].fields["id"].JStr?
    ensures es[i].fields["id"].s in Flatten(resp).value
    ensures (forall j :: i < j < |es| ==> es[j].fields["id"] != es[i].fields["id"]) ==>
      Flatten(resp).value[es[i].fields["id"].s] == (if "value" in es[i].fields then es[i] else JStr(""))
  {
    var ps := Pairs(es).value;
    assert Pair(es[i]) == Ok(ps[i]);
    if forall j :: i < j < |es| ==> es[j].fields["id"] != es[i].fields["id"] {
      forall j | i < j < |ps| ensures ps[j].0 != ps[i].0 {
        assert Pair(es[j]) == Ok(ps[j]);
      }
      assert LastWithKey(ps, i);
      ToDictLastWins(ps, i);
    }
    ToDictKeys(ps, ps[i].0);
  }

  /** Every key of the parsed map is the id of some field entry. */
  lemma FlattenKeysAreIds(resp: Json, es: seq<Json>, k: string)
    requires FlatEntries(resp) == Ok(es) && Flatten(resp).Ok?
    requires k in Flatten(resp).value
    ensures exists i :: 0 <= i < |es| && es[i].JObj? && "id" in es[i].fields && es[i].fields["id"] == JStr(k)
  {
    var ps := Pairs(es).value;
    ToDictKeys(ps, k);
    var i :| 0 <= i < |ps| && ps[i].0 == k;
    assert Pair(es[i]) == Ok(ps[i]);
  }

  /** An entry whose id is not a string, or that is not an entry, makes the
      whole flattening fail. */
  lemma FlattenNeedsStringIds(resp: Json, es: seq<Json>, i: int)
    requires FlatEntries(resp) == Ok(es) && 0 <= i < |es|
    requires !(es[i].JObj? && "id" in es[i].fields && es[i].fields["id"].JStr?)
    ensures Flatten(resp).Raise?
  {
    assert Pair(es[i]).Raise?;
  }

  // ---------------------------------------------------------------------
  // `update_vehicle`: the per-sub-resource merge

  /** The five responses one vehicle update fetches, in order. */
  datatype Responses = Responses(
    carport: Outcome<Json>, position: Outcome<Json>, status: Outcome<Json>,
    trip: Outcome<Json>, heating: Outcome<Json>)

  /** One `try` block: the dictionary `update` is called with, holding
      `response.get(field, {})` under `key` when that is truthy; nothing when
      the request raised, the response is not a dictionary or the field is falsy. */
  function Stored(fetched: Outcome<Json>, field: string, key: string): (r: map<string, Json>)
    ensures r.Keys <= {key}
    ensures fetched.Raise? ==> r == map[]
    ensures key in r ==> fetched.Ok? && Get(fetched.value, field, EmptyObj) == Ok(r[key]) && Truthy(r[key])
  {
    if fetched.Raise? then map[]
    else
      var v := Get(fetched.value, field, EmptyObj);
      if v.Ok? && Truthy(v.value) then map[key := v.value] else map[]
  }

  /** The status block: when the first field of the first data block is
      truthy, the raw tree is stored and then, if flattening succeeds, the
      parsed map; the two are separate updates. */
  function StatusStored(fetched: Outcome<Json>): (r: map<string, Json>)
    ensures r.Keys <= {StatusKey, ParsedKey}
    ensures fetched.Raise? ==> r == map[]
    ensures StatusKey in r ==> fetched.Ok? && Get(fetched.value, StatusKey, EmptyObj) == Ok(r[StatusKey])
    ensures ParsedKey in r ==>
      StatusKey in r && fetched.Ok? && Flatten(fetched.value).Ok? && r[ParsedKey] == JObj(Flatten(fetched.value).value)
  {
    if fetched.Raise? then map[]
    else
      var svdr := Get(fetched.value, StatusKey, EmptyObj);
      if svdr.Raise? then map[]
      else
        var first := FirstField(svdr.value, EmptyObj);
        if first.Raise? || !Truthy(first.value) then map[]
        else
          var parsed := Flatten(fetched.value);
          map[StatusKey := svdr.value] + (if parsed.Ok? then map[ParsedKey := JObj(parsed.value)] else map[])
  }

  /** One of the five `try` blocks of `update_vehicle`: a plain block stores
      one field of its response under a key; the status block is special. */
  datatype Block =
    | Plain(fetched: Outcome<Json>, field: string, key: string)
    | StatusBlock(fetched: Outcome<Json>)

  /** The dictionary one block passes to `update`. */
  function Contribution(b: Block): map<string, Json>
  {
    match b
    case Plain(fetched, field, key) => Stored(fetched, field, key)
    case StatusBlock(fetched) => StatusStored(fetched)
  }

  /** The blocks in the order `update_vehicle` runs them. */
  function Blocks(rs: Responses): seq<Block> {
    [ Plain(rs.carport, "carportData", "carportData"),
      Plain(rs.position, "findCarResponse", "findCarResponse"),
      StatusBlock(rs.status),
      Plain(rs.trip, "tripData", "tripstatistics"),
      Plain(rs.heating, "statusResponse", "heating") ]
  }

  /** Each block's dictionary laid over the previous state, in turn. */
  function Overlay(attrs: Attrs, bs: seq<Block>): Attrs
    decreases |bs|
  {
    if bs == [] then attrs else Overlay(attrs + Contribution(bs[0]), bs[1..])
  }

  /** A vehicle's sub-resources after `update_vehicle`. */
  function Merged(attrs: Attrs, rs: Responses): Attrs {
    Overlay(attrs, Blocks(rs))
  }

  /** The merge written out: the five dictionaries, in request order. */
  lemma MergedInRequestOrder(attrs: Attrs, rs: Responses)
    ensures Merged(attrs, rs)
      == attrs
      + Stored(rs.carport, "carportData", "carportData")
      + Stored(rs.position, "findCarResponse", "findCarResponse")
      + StatusStored(rs.status)
      + Stored(rs.trip, "tripData", "tripstatistics")
      + Stored(rs.heating, "statusResponse", "heating")
  {
    var bs := Blocks(rs);
    var a1 := attrs + Contribution(bs[0]);
    var a2 := a1 + Contribution(bs[1]);
    var a3 := a2 + Contribution(bs[2]);
    var a4 := a3 + Contribution(bs[3]);
    var a5 := a4 + Contribution(bs[4]);
    assert bs[1..][0] == bs[1] && bs[1..][1..] == bs[2..];
    assert bs[2..][0] == bs[2] && bs[2..][1..] == bs[3..];
    assert bs[3..][0] == bs[3] && bs[3..][1..] == bs[4..];
    assert bs[4..][0] == bs[4] && bs[4..][1..] == [];
    assert Overlay(a4, bs[4..]) == a5;
    assert Overlay(a3, bs[3..]) == a5;
    assert Overlay(a2, bs[2..]) == a5;
    assert Overlay(a1, bs[1..]) == a5;
  }

  const MergedKeys: set<string> := {"carportData", "findCarResponse", StatusKey, ParsedKey, "tripstatistics", "heating"}

  /** Keys outside the six sub-resources are never touched, and no key is dropped. */
  lemma MergeKeepsOtherKeys(attrs: Attrs, rs: Responses)
    ensures attrs.Keys <= Merged(attrs, rs).Keys <= attrs.Keys + MergedKeys
    ensures forall k :: k in attrs && k !in MergedKeys ==> Merged(attrs, rs)[k] == attrs[k]
  {
    MergedInRequestOrder(attrs, rs);
  }

  /** A dictionary laid over `m` without `k` leaves `k` as it was. */
  lemma OverlaySkips(m: Attrs, q: map<string, Json>, k: string)
    requires k !in q
    ensures AttrOr(m + q, k, JNull) == AttrOr(m, k, JNull)
  {
  }

  /** A key is untouched by the dictionaries laid before its own one. */
  lemma OverlayOwnPart(attrs: Attrs, earlier: map<string, Json>, own: map<string, Json>, k: string)
    requires k !in earlier
    ensures AttrOr(attrs + earlier + own, k, JNull) == AttrOr(attrs + own, k, JNull)
  {
  }

  /** Each sub-resource after the merge is decided by its own response
      alone: the previous value, overlaid with what its own block stored.
      So a failing fetch leaves its key as it was, whatever the others did. */
  lemma SubResourceIsLocal(attrs: Attrs, rs: Responses)
    ensures AttrOr(Merged(attrs, rs), "carportData", JNull)
      == AttrOr(attrs + Stored(rs.carport, "carportData", "carportData"), "carportData", JNull)
    ensures AttrOr(Merged(attrs, rs), "findCarResponse", JNull)
      == AttrOr(attrs + Stored(rs.position, "findCarResponse", "findCarResponse"), "findCarResponse", JNull)
    ensures AttrOr(Merged(attrs, rs), StatusKey, JNull) == AttrOr(attrs + StatusStored(rs.status), StatusKey, JNull)
    ensures AttrOr(Merged(attrs, rs), ParsedKey, JNull) == AttrOr(attrs + StatusStored(rs.status), ParsedKey, JNull)
    ensures AttrOr(Merged(attrs, rs), "tripstatistics", JNull)
      == AttrOr(attrs + Stored(rs.trip, "tripData", "tripstatistics"), "tripstatistics", JNull)
    ensures AttrOr(Merged(attrs, rs), "heating", JNull)
      == AttrOr(attrs + Stored(rs.heating, "statusResponse", "heating"), "heating", JNull)
  {
    MergedInRequestOrder(attrs, rs);
    var p1 := Stored(rs.carport, "carportData", "carportData");
    var p2 := Stored(rs.position, "findCarResponse", "findCarResponse");
    var p3 := StatusStored(rs.status);
    var p4 := Stored(rs.trip, "tripData", "tripstatistics");
    var p5 := Stored(rs.heating, "statusResponse", "heating");
    // carportData: only the first dictionary may hold it
    OverlaySkips(attrs + p1 + p2 + p3 + p4, p5, "carportData");
    OverlaySkips(attrs + p1 + p2 + p3, p4, "carportData");
    OverlaySkips(attrs + p1 + p2, p3, "carportData");
    OverlaySkips(attrs + p1, p2, "carportData");
    // findCarResponse
    OverlaySkips(attrs + p1 + p2 + p3 + p4, p5, "findCarResponse");
    OverlaySkips(attrs + p1 + p2 + p3, p4, "findCarResponse");
    OverlaySkips(attrs + p1 + p2, p3, "findCarResponse");
    OverlayOwnPart(attrs, p1, p2, "findCarResponse");
    // the status pair
    OverlaySkips(attrs + p1 + p2 + p3 + p4, p5, StatusKey);
    OverlaySkips(attrs + p1 + p2 + p3, p4, StatusKey);
    OverlaySkips(attrs + p1 + p2 + p3 + p4, p5, ParsedKey);
    OverlaySkips(attrs + p1 + p2 + p3, p4, ParsedKey);
    OverlayOwnPart(attrs, p1, p2, StatusKey);
    OverlayOwnPart(attrs, p1, p2, ParsedKey);
    OverlayOwnPart(attrs + p1, p2, p3, StatusKey);
    OverlayOwnPart(attrs + p1, p2, p3, ParsedKey);
    OverlayOwnPart(attrs, p1, p3, StatusKey);
    OverlayOwnPart(attrs, p1, p3, ParsedKey);
    // tripstatistics
    OverlaySkips(attrs + p1 + p2 + p3 + p4, p5, "tripstatistics");
    OverlayOwnPart(attrs + p1 + p2, p3, p4, "tripstatistics");
    OverlayOwnPart(attrs + p1, p2, p4, "tripstatistics");
    OverlayOwnPart(attrs, p1, p4, "tripstatistics");
    // heating
    OverlayOwnPart(attrs + p1 + p2 + p3, p4, p5, "heating");
    OverlayOwnPart(attrs + p1 + p2, p3, p5, "heating");
    OverlayOwnPart(attrs + p1, p2, p5, "heating");
    OverlayOwnPart(attrs, p1, p5, "heating");
  }

  /** A new parsed map is always the flattening of the status response whose
      raw tree is stored beside it in the same update. */
  lemma ParsedMatchesStoredStatus(attrs: Attrs, rs: Responses)
    requires AttrOr(Merged(attrs, rs), ParsedKey, JNull) != AttrOr(attrs, ParsedKey, JNull)
    ensures rs.status.Ok? && Flatten(rs.status.value).Ok?
    ensures AttrOr(Merged(attrs, rs), ParsedKey, JNull) == JObj(Flatten(rs.status.value).value)
    ensures StatusKey in Merged(attrs, rs) && Get(rs.status.value, StatusKey, EmptyObj) == Ok(Merged(attrs, rs)[StatusKey])
  {
    SubResourceIsLocal(attrs, rs);
  }

  /** A status response that passes the guard but cannot be flattened still
      replaces the raw tree, and the previous parsed map stays. */
  lemma UnflattenableStatusKeepsOldParsed(attrs: Attrs, rs: Responses)
    requires rs.status.Ok? && rs.status.value.JObj?
    requires FirstField(Get(rs.status.value, StatusKey, EmptyObj).value, EmptyObj).Ok?
    requires Truthy(FirstField(Get(rs.status.value, StatusKey, EmptyObj).value, EmptyObj).value)
    requires Flatten(rs.status.value).Raise?
    ensures AttrOr(Merged(attrs, rs), StatusKey, JNull) == Get(rs.status.value, StatusKey, EmptyObj).value
    ensures AttrOr(Merged(attrs, rs), ParsedKey, JNull) == AttrOr(attrs, ParsedKey, JNull)
  {
    SubResourceIsLocal(attrs, rs);
  }

  // ---------------------------------------------------------------------
  // The connection

  /** What `_login` did: gave up early (returning "" and leaving the flag),
      completed, or raised and was caught. */
  datatype LoginResult = Aborted | Succeeded | Failed

  /** The exceptions `update` catches: OSError (IOError) and LookupError. */
  predicate Caught(e: Exc) {
    e == IOError || e == KeyError || e == IndexError
  }

  /** `loaded_vehicles.get('userVehicles', {}).get('vehicle', [])`. */
  function Listing(loaded: Json): Outcome<Json> {
    var uv :- Get(loaded, "userVehicles", EmptyObj);
    Get(uv, "vehicle", JList([]))
  }

  /** The vehicle ids a listing names, when iterating it succeeds. */
  function ListedIds(vs: Json): Outcome<set<string>> {
    match vs
    case JList(items) =>
      if forall i :: 0 <= i < |items| ==> items[i].JStr?
      then Ok(set i | 0 <= i < |items| :: items[i].s)
      else Raise(TypeError)
    case JStr(s) => Ok(set i | 0 <= i < |s| :: [s[i]])
    case JObj(m) => Ok(m.Keys)
    case _ => Raise(TypeError)
  }

  /** The items `for vehicle in vs` visits in order, for a list or a string. */
  function Items(vs: Json): seq<Json> {
    match vs
    case JList(items) => items
    case JStr(s) => seq(|s|, i requires 0 <= i < |s| => JStr([s[i]]))
    case _ => []
  }

  /** The leading items that are strings, as ids. */
  function StringPrefix(items: seq<Json>): (r: seq<string>)
    ensures |r| <= |items|
    ensures forall i :: 0 <= i < |r| ==> items[i] == JStr(r[i])
    ensures |r| < |items| ==> !items[|r|].JStr?
    decreases |items|
  {
    if items == [] || !items[0].JStr? then [] else [items[0].s] + StringPrefix(items[1..])
  }

  /** `order` with each id of `ids` that is not yet in it appended. */
  function AddNew(order: seq<string>, ids: seq<string>): seq<string>
    decreases |ids|
  {
    if ids == [] then order
    else if ids[0] in order then AddNew(order, ids[1..])
    else AddNew(order + [ids[0]], ids[1..])
  }

  /** Every id of `ids` reset to an empty dictionary. */
  function Reset(state: map<string, Attrs>, ids: set<string>): (r: map<string, Attrs>)
    ensures r.Keys == state.Keys + ids
    ensures forall k :: k in ids ==> r[k] == map[]
    ensures forall k :: k in state && k !in ids ==> r[k] == state[k]
  {
    map k | k in state.Keys + ids :: if k in ids then map[] else state[k]
  }

  predicate Distinct(s: seq<string>) {
    forall i, j :: 0 <= i < j < |s| ==> s[i] != s[j]
  }

  /** The urls of `urls` merged with their own responses, every other
      vehicle of `st` as it was. */
  function PollSome(st: map<string, Attrs>, urls: set<string>, fetch: string -> Responses): (r: map<string, Attrs>)
    ensures r.Keys == st.Keys
  {
    map k | k in st :: if k in urls then Merged(st[k], fetch(k)) else st[k]
  }

  /** Every entry of `st` is its entry of `st0`, merged when its url is in `done`. */
  ghost predicate MergedExactly(st: map<string, Attrs>, st0: map<string, Attrs>, done: set<string>, fetch: string -> Responses) {
    forall k :: k in st && k in st0 ==> st[k] == if k in done then Merged(st0[k], fetch(k)) else st0[k]
  }

  /** A dictionary with the keys of `st0` whose entries are merged exactly
      for `urls` is `PollSome(st0, urls, fetch)`. */
  lemma PollSomePointwise(st: map<string, Attrs>, st0: map<string, Attrs>, urls: set<string>, fetch: string -> Responses)
    requires st.Keys == st0.Keys && MergedExactly(st, st0, urls, fetch)
    ensures st == PollSome(st0, urls, fetch)
  {
  }

  /** Merging every known url is the poll of the whole fleet. */
  lemma PollSomeOfAll(st: map<string, Attrs>, urls: set<string>, fetch: string -> Responses)
    requires st.Keys <= urls
    ensures PollSome(st, urls, fetch) == PollAll(st, fetch)
  {
  }

  /** Laying the same dictionaries over a dictionary twice is laying them once. */
  lemma UnionTwice(m: Attrs, p1: map<string, Json>, p2: map<string, Json>, p3: map<string, Json>, p4: map<string, Json>, p5: map<string, Json>)
    ensures m + p1 + p2 + p3 + p4 + p5 + p1 + p2 + p3 + p4 + p5 == m + p1 + p2 + p3 + p4 + p5
  {
    var c := p1 + p2 + p3 + p4 + p5;
    UnionRegroups(m, p1, p2, p3, p4, p5);
    UnionRegroups(m + c, p1, p2, p3, p4, p5);
    assert (m + c) + c == m + c;
  }

  /** Laying five dictionaries in turn is laying their union. */
  lemma UnionRegroups(m: Attrs, p1: map<string, Json>, p2: map<string, Json>, p3: map<string, Json>, p4: map<string, Json>, p5: map<string, Json>)
    ensures m + p1 + p2 + p3 + p4 + p5 == m + (p1 + p2 + p3 + p4 + p5)
  {
    UnionAssociates(m, p1, p2);
    UnionAssociates(m, p1 + p2, p3);
    UnionAssociates(m, p1 + p2 + p3, p4);
    UnionAssociates(m, p1 + p2 + p3 + p4, p5);
  }

  lemma UnionAssociates(a: Attrs, b: map<string, Json>, c: map<string, Json>)
    ensures a + b + c == a + (b + c)
  {
  }

  /** Running `update_vehicle` again with the same responses changes nothing:
      every block overwrites what it wrote before and keeps what it did not. */
  lemma MergedIdempotent(attrs: Attrs, rs: Responses)
    ensures Merged(Merged(attrs, rs), rs) == Merged(attrs, rs)
  {
    MergedInRequestOrder(attrs, rs);
    MergedInRequestOrder(Merged(attrs, rs), rs);
    UnionTwice(attrs, Stored(rs.carport, "carportData", "carportData"),
      Stored(rs.position, "findCarResponse", "findCarResponse"), StatusStored(rs.status),
      Stored(rs.trip, "tripData", "tripstatistics"), Stored(rs.heating, "statusResponse", "heating"));
  }

  /** Updating the same vehicles a second time with the same responses
      leaves the state of the first time. */
  lemma PollSomeTwice(st: map<string, Attrs>, urls: set<string>, fetch: string -> Responses)
    ensures PollSome(PollSome(st, urls, fetch), urls, fetch) == PollSome(st, urls, fetch)
  {
    forall k | k in st && k in urls
      ensures Merged(Merged(st[k], fetch(k)), fetch(k)) == Merged(st[k], fetch(k))
    {
      MergedIdempotent(st[k], fetch(k));
    }
  }

  /** The first vehicle of `vs` whose url is `url`: `next` over the generator
      with None as default. */
  function FirstWithUrl(vs: seq<Vehicle>, url: string): (r: Option<Vehicle>)
    ensures r.None? <==> forall i :: 0 <= i < |vs| ==> vs[i].url != url
    ensures r.Some? ==> exists i :: 0 <= i < |vs| && vs[i] == r.value && r.value.url == url && forall j :: 0 <= j < i ==> vs[j].url != url
    decreases |vs|
  {
    if vs == [] then None
    else if vs[0].url == url then Some(vs[0])
    else
      var r := FirstWithUrl(vs[1..], url);
      assert r.Some? ==> exists i :: 0 <= i < |vs| && vs[i] == r.value && r.value.url == url && forall j :: 0 <= j < i ==> vs[j].url != url by {
        if r.Some? {
          var i :| 0 <= i < |vs| - 1 && vs[1..][i] == r.value && r.value.url == url && forall j :: 0 <= j < i ==> vs[1..][j].url != url;
          assert vs[i + 1] == r.value;
          assert forall j :: 0 < j < i + 1 ==> vs[j] == vs[1..][j - 1];
        }
      }
      assert r.None? ==> forall i :: 0 < i < |vs| ==> vs[i] == vs[1..][i - 1];
      r
  }

  /** Every vehicle of `st` merged with its own responses. */
  function PollAll(st: map<string, Attrs>, fetch: string -> Responses): map<string, Attrs> {
    map k | k in st :: Merged(st[k], fetch(k))
  }

  /** A dictionary with the same keys as `st0` whose entry for every url of
      `urls`, which covers those keys, is merged, is the poll of `st0`. */
  lemma PollAllByIndex(st0: map<string, Attrs>, st: map<string, Attrs>, urls: seq<string>, fetch: string -> Responses)
    requires st.Keys == st0.Keys
    requires forall k :: k in st0 ==> k in urls
    requires forall j :: 0 <= j < |urls| ==> urls[j] in st0 && st[urls[j]] == Merged(st0[urls[j]], fetch(urls[j]))
    ensures st == PollAll(st0, fetch)
  {
    forall k | k in st ensures st[k] == Merged(st0[k], fetch(k)) {
      var j :| 0 <= j < |urls| && urls[j] == k;
    }
  }

  /** Resetting one more id. */
  lemma ResetAddsOne(st: map<string, Attrs>, done: set<string>, id: string)
    ensures Reset(st, done)[id := map[]] == Reset(st, done + {id})
  {
  }

  /** Resetting one more id of a sequence. */
  lemma ResetOneMore(st: map<string, Attrs>, done: seq<string>, id: string)
    ensures Reset(st, set x | x in done)[id := map[]] == Reset(st, set x | x in done + [id])
  {
    assert (set x | x in done + [id]) == (set x | x in done) + {id};
  }

  /** For a list or a string, the ids the reset loop visits are exactly the
      listed ids when every item is a string, and the listing fails otherwise. */
  lemma ListedIdsOfPrefix(vs: Json)
    requires vs.JList? || vs.JStr?
    ensures ListedIds(vs).Ok? <==> |StringPrefix(Items(vs))| == |Items(vs)|
    ensures ListedIds(vs).Ok? ==> ListedIds(vs).value == set id | id in StringPrefix(Items(vs))
  {
    var items := Items(vs);
    var ids := StringPrefix(items);
    if vs.JStr? {
      assert forall k :: 0 <= k < |items| ==> items[k].JStr?;
      assert |ids| == |items|;
      forall j | 0 <= j < |ids| ensures ids[j] == [vs.s[j]] {
        assert items[j] == JStr(ids[j]);
      }
    } else if |ids| == |items| {
      assert forall k :: 0 <= k < |items| ==> items[k] == JStr(ids[k]);
    } else {
      assert !items[|ids|].JStr?;
    }
  }

  class Connection {
    /** `_state`: each vehicle url with its sub-resources. */
    var state: map<string, Attrs>
    /** The insertion order of `_state`, in which vehicles are visited. */
    var order: seq<string>
    /** `_session_logged_in`. */
    var loggedIn: bool
    /** `_session_first_update`. */
    var firstUpdate: bool
    /** `_vin`: the last vehicle updated. */
    var vin: string

    ghost predicate Valid()
      reads this
    {
      Distinct(order) && (forall i :: 0 <= i < |order| ==> order[i] in state) && (forall k :: k in state ==> k in order)
    }

    /** A fresh connection is not logged in and has no vehicles. */
    constructor ()
      ensures Valid()
      ensures !loggedIn && !firstUpdate && vin == ""
      ensures state == map[] && order == []
    {
      state := map[];
      order := [];
      loggedIn := false;
      firstUpdate := false;
      vin := "";
    }

    /** `logged_in`. */
    function LoggedIn(): bool
      reads this
    {
      loggedIn
    }

    /** The effect of `_login` on the session flag. */
    method Login(result: LoginResult)
      modifies this
      ensures loggedIn == (if result == Succeeded then true else if result == Failed then false else old(loggedIn))
      ensures state == old(state) && order == old(order) && firstUpdate == old(firstUpdate) && vin == old(vin)
    {
      if result == Succeeded {
        loggedIn := true;
      } else if result == Failed {
        loggedIn := false;
      }
    }

    /** `vehicle_attrs(url)`: the sub-resources, or None for an unknown url. */
    function VehicleAttrs(url: string): (r: Option<Attrs>)
      reads this
      ensures r.Some? <==> url in state
      ensures r.Some? ==> r.value == state[url]
      ensures Valid() ==> (r.Some? <==> exists i :: 0 <= i < |Vehicles()| && Vehicles()[i].url == url)
      ensures Valid() ==> forall i :: 0 <= i < |Vehicles()| && Vehicles()[i].url == url ==> r == Some(Vehicles()[i].attrs)
    {
      assert Valid() && url in state ==> exists i :: 0 <= i < |Vehicles()| && Vehicles()[i].url == url by {
        if Valid() && url in state {
          var i :| 0 <= i < |order| && order[i] == url;
          assert Vehicles()[i].url == url;
        }
      }
      if url in state then Some(state[url]) else None
    }

    /** `vehicles`: one vehicle per url, in insertion order. */
    function Vehicles(): (r: seq<Vehicle>)
      reads this
      requires Valid()
      ensures |r| == |order|
      ensures forall i :: 0 <= i < |r| ==> r[i] == Vehicle(order[i], state[order[i]])
      ensures forall i, j :: 0 <= i < j < |r| ==> r[i].url != r[j].url
      ensures forall k :: k in state <==> exists i :: 0 <= i < |r| && r[i].url == k
    {
      seq(|order|, i requires 0 <= i < |order| reads this requires Valid() => Vehicle(order[i], state[order[i]]))
    }

    /** `update_vehicle`: the five sub-resource blocks, each on its own. For
        a url that has no entry every block's `KeyError` is caught, so
        nothing but the current vin changes. */
    method UpdateVehicle(url: string, rs: Responses)
      modifies this
      ensures url in old(state) ==> state == old(state)[url := Merged(old(state)[url], rs)]
      ensures url !in old(state) ==> state == old(state)
      ensures vin == url
      ensures order == old(order) && loggedIn == old(loggedIn) && firstUpdate == old(firstUpdate)
    {
      vin := url;
      if url in state {
        var attrs := state[url];
        attrs := attrs + Stored(rs.carport, "carportData", "carportData");
        attrs := attrs + Stored(rs.position, "findCarResponse", "findCarResponse");
        attrs := attrs + StatusStored(rs.status);
        attrs := attrs + Stored(rs.trip, "tripData", "tripstatistics");
        attrs := attrs + Stored(rs.heating, "statusResponse", "heating");
        MergedInRequestOrder(state[url], rs);
        state := state[url := attrs];
      }
    }

    /** `self._state.update({id: dict()})`. */
    method ResetOne(id: string)
      requires Valid()
      modifies this
      ensures Valid()
      ensures state == old(state)[id := map[]]
      ensures order == AddNew(old(order), [id])
      ensures loggedIn == old(loggedIn) && firstUpdate == old(firstUpdate) && vin == old(vin)
    {
      if id !in state {
        order := order + [id];
      }
      state := state[id := map[]];
    }

    /** The reset loop of `update` over the ids of a list or a string. */
    method ResetIds(ids: seq<string>)
      requires Valid()
      modifies this
      ensures Valid()
      ensures state == Reset(old(state), set id | id in ids)
      ensures order == AddNew(old(order), ids)
      ensures loggedIn == old(loggedIn) && firstUpdate == old(firstUpdate) && vin == old(vin)
    {
      var i := 0;
      while i < |ids|
        invariant 0 <= i <= |ids|
        invariant Valid()
        invariant state == Reset(old(state), set id | id in ids[..i])
        invariant AddNew(order, ids[i..]) == AddNew(old(order), ids)
        invariant loggedIn == old(loggedIn) && firstUpdate == old(firstUpdate) && vin == old(vin)
      {
        ResetOne(ids[i]);
        ResetOneMore(old(state), ids[..i], ids[i]);
        assert ids[..i + 1] == ids[..i] + [ids[i]];
        assert ids[i..][1..] == ids[i + 1..];
        i := i + 1;
      }
      assert ids[..i] == ids;
    }

    /** The reset loop of `update` over the keys of a dictionary, in some order. */
    method ResetKeys(keys: set<string>)
      requires Valid()
      modifies this
      ensures Valid()
      ensures state == Reset(old(state), keys)
      ensures old(order) <= order
      ensures loggedIn == old(loggedIn) && firstUpdate == old(firstUpdate) && vin == old(vin)
    {
      var remaining := keys;
      while remaining != {}
        invariant remaining <= keys
        invariant Valid()
        invariant state == Reset(old(state), keys - remaining)
        invariant old(order) <= order
        invariant loggedIn == old(loggedIn) && firstUpdate == old(firstUpdate) && vin == old(vin)
        decreases remaining
      {
        var k :| k in remaining;
        ResetOne(k);
        ResetAddsOne(old(state), keys - remaining, k);
        assert keys - (remaining - {k}) == (keys - remaining) + {k};
        remaining := remaining - {k};
      }
    }

    /** The reset loop of `update` over a truthy listing: every listed
        vehicle starts again from an empty dictionary. A list item that is
        not a string raises TypeError after the items before it were reset. */
    method ResetListed(vs: Json) returns (r: Outcome<bool>)
      requires Valid()
      modifies this
      ensures Valid()
      ensures loggedIn == old(loggedIn) && firstUpdate == old(firstUpdate) && vin == old(vin)
      ensures r.Ok? <==> ListedIds(vs).Ok?
      ensures r.Raise? ==> r.exc == TypeError
      ensures r.Ok? ==> state == Reset(old(state), ListedIds(vs).value)
      ensures vs.JList? || vs.JStr? ==>
        var ids := StringPrefix(Items(vs));
        state == Reset(old(state), set id | id in ids) && order == AddNew(old(order), ids)
      ensures vs.JObj? ==> old(order) <= order
      ensures !(vs.JList? || vs.JStr? || vs.JObj?) ==> state == old(state) && order == old(order)
    {
      if vs.JList? || vs.JStr? {
        var ids := StringPrefix(Items(vs));
        ResetIds(ids);
        ListedIdsOfPrefix(vs);
        r := if |ids| < |Items(vs)| then Raise(TypeError) else Ok(true);
      } else if vs.JObj? {
        ResetKeys(vs.fields.Keys);
        r := Ok(true);
      } else {
        r := Raise(TypeError);
      }
    }

    /** One pass of the loop in `update`: the vehicle at position `i` is
        merged with its own responses; those before it already were, those
        after it are not yet. */
    method UpdateNext(i: nat, fetch: string -> Responses, ghost st0: map<string, Attrs>)
      requires Distinct(order) && i < |order| && state.Keys == st0.Keys
      requires forall j :: 0 <= j < |order| ==> order[j] in state
      requires forall j :: 0 <= j < i ==> state[order[j]] == Merged(st0[order[j]], fetch(order[j]))
      requires forall j :: i <= j < |order| ==> state[order[j]] == st0[order[j]]
      modifies this
      ensures order == old(order) && loggedIn == old(loggedIn) && firstUpdate == old(firstUpdate)
      ensures state.Keys == st0.Keys && vin == order[i]
      ensures forall j :: 0 <= j <= i ==> state[order[j]] == Merged(st0[order[j]], fetch(order[j]))
      ensures forall j :: i < j < |order| ==> state[order[j]] == st0[order[j]]
    {
      UpdateVehicle(order[i], fetch(order[i]));
    }

    /** `for vehicle in self.vehicles: await vehicle.update()`: every known
        vehicle is merged with its own responses. */
    method UpdateAll(fetch: string -> Responses)
      requires Valid()
      modifies this
      ensures Valid()
      ensures state == PollAll(old(state), fetch)
      ensures vin == (if order == [] then old(vin) else order[|order| - 1])
      ensures order == old(order) && loggedIn == old(loggedIn) && firstUpdate == old(firstUpdate)
    {
      var i := 0;
      while i < |order|
        invariant 0 <= i <= |order| && order == old(order)
        invariant state.Keys == old(state).Keys
        invariant forall j :: 0 <= j < i ==> state[order[j]] == Merged(old(state)[order[j]], fetch(order[j]))
        invariant forall j :: i <= j < |order| ==> state[order[j]] == old(state)[order[j]]
        invariant vin == (if i == 0 then old(vin) else order[i - 1])
        invariant loggedIn == old(loggedIn) && firstUpdate == old(firstUpdate)
      {
        UpdateNext(i, fetch, old(state));
        i := i + 1;
      }
      PollAllByIndex(old(state), state, order, fetch);
    }

    /** The queued `update_vehicle` calls of the coordinator, one per url of
        `urls`, in some order: exactly those vehicles are merged with their
        own responses, and the current vin is the last one updated. */
    method UpdateSome(urls: set<string>, fetch: string -> Responses)
      requires Valid() && urls <= state.Keys
      modifies this
      ensures Valid()
      ensures state == PollSome(old(state), urls, fetch)
      ensures if urls == {} then vin == old(vin) else vin in urls
      ensures order == old(order) && loggedIn == old(loggedIn) && firstUpdate == old(firstUpdate)
    {
      var todo := urls;
      while todo != {}
        invariant todo <= urls && state.Keys == old(state).Keys
        invariant MergedExactly(state, old(state), urls - todo, fetch)
        invariant if todo == urls then vin == old(vin) else vin in urls
        invariant order == old(order) && loggedIn == old(loggedIn) && firstUpdate == old(firstUpdate)
        decreases todo
      {
        var url :| url in todo;
        UpdateOneMore(url, urls - todo, fetch, old(state));
        assert (urls - todo) + {url} == urls - (todo - {url});
        todo := todo - {url};
      }
      assert urls - todo == urls;
      PollSomePointwise(state, old(state), urls, fetch);
    }

    /** One queued update: the vehicle at `url` joins those already merged. */
    method UpdateOneMore(url: string, ghost done: set<string>, fetch: string -> Responses, ghost st0: map<string, Attrs>)
      requires url in st0 && url !in done && state.Keys == st0.Keys && MergedExactly(state, st0, done, fetch)
      modifies this
      ensures state.Keys == st0.Keys && MergedExactly(state, st0, done + {url}, fetch)
      ensures vin == url && order == old(order) && loggedIn == old(loggedIn) && firstUpdate == old(firstUpdate)
    {
      UpdateVehicle(url, fetch(url));
    }

    /** `update`: on every poll but the first, an expired session triggers a
        login; then the vehicle listing resets the listed vehicles and every
        known vehicle is updated. A failed listing request that is an OSError
        or a LookupError ends the poll with None; any other exception
        propagates. */
    method Update(listing: Outcome<Json>, sessionValid: bool, login: LoginResult, fetch: string -> Responses)
      returns (r: Outcome<Json>)
      requires Valid()
      modifies this
      ensures Valid() && firstUpdate
      ensures loggedIn == (if old(firstUpdate) && !sessionValid && login == Succeeded then true
                           else if old(firstUpdate) && !sessionValid && login == Failed then false
                           else old(loggedIn))
      ensures listing.Raise? ==>
        state == old(state) && order == old(order) && r == (if Caught(listing.exc) then Ok(JNull) else Raise(listing.exc))
      ensures listing.Ok? && Listing(listing.value).Raise? ==> state == old(state) && r == Raise(AttributeError)
      ensures listing.Ok? && Listing(listing.value).Ok? && !Truthy(Listing(listing.value).value) ==>
        r == Ok(JBool(true)) && state == PollAll(old(state), fetch)
      ensures listing.Ok? && Listing(listing.value).Ok? && Truthy(Listing(listing.value).value) ==>
        var ids := ListedIds(Listing(listing.value).value);
        (ids.Raise? ==> r == Raise(TypeError))
        && (ids.Ok? ==>
              r == Ok(JBool(true)) && state == PollAll(Reset(old(state), ids.value), fetch))
      ensures r == Ok(JBool(true)) ==> forall k :: k in old(state) ==> k in state
      ensures listing.Raise? || Listing(listing.value).Raise? ==> order == old(order)
      ensures listing.Ok? && Listing(listing.value).Ok? ==>
        var v := Listing(listing.value).value;
        (!Truthy(v) ==> order == old(order))
        && (Truthy(v) && (v.JList? || v.JStr?) ==>
              var ids := StringPrefix(Items(v));
              order == AddNew(old(order), ids)
              && (ListedIds(v).Raise? ==> state == Reset(old(state), set id | id in ids)))
        && (Truthy(v) && v.JObj? ==> old(order) <= order)
        && (Truthy(v) && !(v.JList? || v.JStr? || v.JObj?) ==> state == old(state) && order == old(order))
      ensures r == Ok(JBool(true)) ==> vin == (if order == [] then old(vin) else order[|order| - 1])
      ensures r != Ok(JBool(true)) ==> vin == old(vin)
    {
      if firstUpdate {
        if !sessionValid {
          Login(login);
        }
      } else {
        firstUpdate := true;
      }
      if listing.Raise? {
        return if Caught(listing.exc) then Ok(JNull) else Raise(listing.exc);
      }
      var vs := Listing(listing.value);
      if vs.Raise? {
        return Raise(AttributeError);
      }
      r := ResetAndPoll(vs.value, fetch);
    }

    /** The part of `update` after the listing has been read: a truthy
        listing resets the vehicles it names, then every vehicle is polled. */
    method ResetAndPoll(v: Json, fetch: string -> Responses) returns (r: Outcome<Json>)
      requires Valid()
      modifies this
      ensures Valid()
      ensures loggedIn == old(loggedIn) && firstUpdate == old(firstUpdate)
      ensures !Truthy(v) ==> r == Ok(JBool(true)) && state == PollAll(old(state), fetch) && order == old(order)
      ensures Truthy(v) && ListedIds(v).Raise? ==> r == Raise(TypeError)
      ensures Truthy(v) && ListedIds(v).Ok? ==> r == Ok(JBool(true)) && state == PollAll(Reset(old(state), ListedIds(v).value), fetch)
      ensures Truthy(v) && (v.JList? || v.JStr?) ==> order == AddNew(old(order), StringPrefix(Items(v)))
      ensures Truthy(v) && (v.JList? || v.JStr?) && ListedIds(v).Raise? ==>
        state == Reset(old(state), set id | id in StringPrefix(Items(v)))
      ensures Truthy(v) && v.JObj? ==> old(order) <= order
      ensures Truthy(v) && !(v.JList? || v.JStr? || v.JObj?) ==> state == old(state) && order == old(order)
      ensures r == Ok(JBool(true)) ==> vin == (if order == [] then old(vin) else order[|order| - 1])
      ensures r != Ok(JBool(true)) ==> vin == old(vin)
      ensures r == Ok(JBool(true)) ==> forall k :: k in old(state) ==> k in state
    {
      var reset := ResetIfListed(v);
      if reset.Raise? {
        return Raise(TypeError);
      }
      UpdateAll(fetch);
      return Ok(JBool(true));
    }

    /** The reset step of `update`: only a truthy listing resets anything. */
    method ResetIfListed(v: Json) returns (r: Outcome<bool>)
      requires Valid()
      modifies this
      ensures Valid()
      ensures loggedIn == old(loggedIn) && firstUpdate == old(firstUpdate) && vin == old(vin)
      ensures r.Raise? <==> Truthy(v) && ListedIds(v).Raise?
      ensures !Truthy(v) ==> state == old(state) && order == old(order)
      ensures Truthy(v) && ListedIds(v).Ok? ==> state == Reset(old(state), ListedIds(v).value)
      ensures Truthy(v) && (v.JList? || v.JStr?) ==>
        state == Reset(old(state), set id | id in StringPrefix(Items(v))) && order == AddNew(old(order), StringPrefix(Items(v)))
      ensures Truthy(v) && v.JObj? ==> old(order) <= order
      ensures Truthy(v) && !(v.JList? || v.JStr? || v.JObj?) ==> state == old(state) && order == old(order)
    {
      r := Ok(true);
      if Truthy(v) {
        r := ResetListed(v);
      }
    }

    /** `vehicle(vin)`: the search through `vehicles` for the first vehicle
        whose url equals the lower-cased vin finds exactly the entry of the
        state dictionary under that url. */
    function FindVehicle(v: string): (r: Option<Vehicle>)
      reads this
      requires Valid()
      ensures r.Some? <==> Lower(v) in state
      ensures r.Some? ==> r.value == Vehicle(Lower(v), state[Lower(v)])
    {
      var vs := Vehicles();
      var r := FirstWithUrl(vs, Lower(v));
      assert r.Some? ==> r.value == Vehicle(Lower(v), state[Lower(v)]) by {
        if r.Some? {
          var i :| 0 <= i < |vs| && vs[i] == r.value && r.value.url == Lower(v) && forall j :: 0 <= j < i ==> vs[j].url != Lower(v);
        }
      }
      r
    }
  }

  /** `str.lower()` on ASCII letters; other characters are kept. */
  function Lower(s: string): (r: string)
    ensures |r| == |s|
    ensures forall i :: 0 <= i < |s| ==> r[i] == (if 'A' <= s[i] <= 'Z' then (s[i] as int + 32) as char else s[i])
    ensures forall i :: 0 <= i < |r| ==> !('A' <= r[i] <= 'Z')
  {
    seq(|s|, i requires 0 <= i < |s| => if 'A' <= s[i] <= 'Z' then (s[i] as int + 32) as char else s[i])
  }

  /** Lower-casing is a normal form: a url the lookup compares against is
      unchanged by lower-casing it again, and two strings that differ only
      in the case of their letters look up the same url. */
  lemma LowerIdempotent(s: string, t: string)
    ensures Lower(Lower(s)) == Lower(s)
    ensures |s| == |t| && (forall i :: 0 <= i < |s| ==> s[i] == t[i] || Lower([s[i]]) == Lower([t[i]])) ==> Lower(s) == Lower(t)
  {
    if |s| == |t| && (forall i :: 0 <= i < |s| ==> s[i] == t[i] || Lower([s[i]]) == Lower([t[i]])) {
      forall i | 0 <= i < |s| ensures Lower(s)[i] == Lower(t)[i] {
        assert Lower([s[i]])[0] == Lower(s)[i];
        assert Lower([t[i]])[0] == Lower(t)[i];
      }
    }
  }

  // ---------------------------------------------------------------------
  // `generateSecurPin`

  type Byte = x: int | 0 <= x < 256

  function HexValue(c: char): Option<nat> {
    if '0' <= c <= '9' then Some(c as int - '0' as int)
    else if 'a' <= c <= 'f' then Some(c as int - 'a' as int + 10)
    else if 'A' <= c <= 'F' then Some(c as int - 'A' as int + 10)
    else None
  }

  /** `bytearray.fromhex(s)`: whitespace may separate byte pairs; each pair is
      two hex digits of either case. */
  function FromHex(s: string): (r: Outcome<seq<Byte>>)
    ensures r.Raise? ==> r.exc == ValueError
    decreases |s|
  {
    if s == [] then Ok([])
    else if IsSpace(s[0]) then FromHex(s[1..])
    else if |s| < 2 || HexValue(s[0]).None? || HexValue(s[1]).None? then Raise(ValueError)
    else
      var rest :- FromHex(s[2..]);
      Ok([HexValue(s[0]).value * 16 + HexValue(s[1]).value] + rest)
  }

  function HexDigit(n: nat): char
    requires n < 16
  {
    if n < 10 then ('0' as int + n) as char else ('a' as int + n - 10) as char
  }

  /** `hexdigest()`: two lower-case hex digits per byte. */
  function ToHex(bs: seq<Byte>): (r: string)
    ensures |r| == 2 * |bs|
    decreases |bs|
  {
    if bs == [] then [] else [HexDigit(bs[0] / 16), HexDigit(bs[0] % 16)] + ToHex(bs[1..])
  }

  lemma HexDigitValue(n: nat)
    requires n < 16
    ensures HexValue(HexDigit(n)) == Some(n)
    ensures !IsSpace(HexDigit(n))
  {
  }

  /** One byte pair in front of decodable text adds one byte in front. */
  lemma FromHexPair(a: char, b: char, t: string)
    requires HexValue(a).Some? && HexValue(b).Some? && !IsSpace(a)
    requires FromHex(t).Ok?
    ensures FromHex([a, b] + t) == Ok([HexValue(a).value * 16 + HexValue(b).value] + FromHex(t).value)
  {
    var s := [a, b] + t;
    assert s[0] == a && s[1] == b && s[2..] == t;
  }

  /** Hex decoding inverts the digest's hex encoding. */
  lemma {:induction false} FromHexToHex(bs: seq<Byte>)
    ensures FromHex(ToHex(bs)) == Ok(bs)
    decreases |bs|
  {
    if bs != [] {
      var hi, lo := HexDigit(bs[0] / 16), HexDigit(bs[0] % 16);
      HexDigitValue(bs[0] / 16);
      HexDigitValue(bs[0] % 16);
      FromHexToHex(bs[1..]);
      FromHexPair(hi, lo, ToHex(bs[1..]));
      assert ToHex(bs) == [hi, lo] + ToHex(bs[1..]);
      assert [bs[0]] + bs[1..] == bs;
    }
  }

  /** An odd number of hex digits and nothing else cannot be decoded. */
  lemma {:induction false} OddHexRejected(s: string)
    requires |s| % 2 == 1
    requires forall i :: 0 <= i < |s| ==> HexValue(s[i]).Some? && !IsSpace(s[i])
    ensures FromHex(s) == Raise(ValueError)
    decreases |s|
  {
    if |s| >= 2 {
      assert forall i :: 0 <= i < |s[2..]| ==> s[2..][i] == s[i + 2];
      OddHexRejected(s[2..]);
    }
  }

  /** The decoded bytes of a hex argument; a non-string raises TypeError. */
  function HexArg(j: Json): Outcome<seq<Byte>> {
    if j.JStr? then FromHex(j.s) else Raise(TypeError)
  }

  /** `generateSecurPin(challenge, pin)`: the PIN bytes, extended in place
      with the challenge bytes, go to SHA-512 (`sha512`, outside the model),
      whose digest is returned as lower-case hex. */
  method GenerateSecurPin(challenge: Json, pin: Json, sha512: seq<Byte> -> seq<Byte>) returns (r: Outcome<string>)
    ensures HexArg(pin).Raise? ==> r == Raise(HexArg(pin).exc)
    ensures HexArg(pin).Ok? && HexArg(challenge).Raise? ==> r == Raise(HexArg(challenge).exc)
    ensures HexArg(pin).Ok? && HexArg(challenge).Ok? ==>
      r == Ok(ToHex(sha512(HexArg(pin).value + HexArg(challenge).value)))
  {
    var pinArray := HexArg(pin);
    if pinArray.Raise? {
      return Raise(pinArray.exc);
    }
    var byteChallenge := HexArg(challenge);
    if byteChallenge.Raise? {
      return Raise(byteChallenge.exc);
    }
    var buffer := pinArray.value;
    var i := 0;
    while i < |byteChallenge.value|
      invariant 0 <= i <= |byteChallenge.value|
      invariant buffer == pinArray.value + byteChallenge.value[..i]
    {
      buffer := buffer + [byteChallenge.value[i]];
      i := i + 1;
    }
    assert byteChallenge.value[..i] == byteChallenge.value;
    return Ok(ToHex(sha512(buffer)));
  }

  /** For a hex PIN and a hex challenge, the digest input is the PIN's bytes
      followed by the challenge's bytes. */
  lemma SecurPinInput(pin: seq<Byte>, challenge: seq<Byte>)
    ensures HexArg(JStr(ToHex(pin))) == Ok(pin)
    ensures HexArg(JStr(ToHex(challenge))) == Ok(challenge)
  {
    FromHexToHex(pin);
    FromHexToHex(challenge);
  }
}
