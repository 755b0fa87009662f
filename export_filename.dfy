/** The file name `handleExportPDF` in src/pages/Dashboard.jsx gives the
    exported report. It runs the case-insensitive pattern
      filename\*=UTF-8''(?<utf>[^;]+)  |  filename="?(?<plain>[^";]+)"?
    over the `Content-Disposition` header and takes the FIRST match in the
    header, whichever form it is. Section 4.3 of RFC 6266 recommends
    preferring the `filename*` form (the ext-value of section 3.2 of RFC 8187)
    when both are present; the code does not. `decodeURIComponent` is a
    parameter that may throw (None), and the current date is a parameter. */
module ExportFilename {
  import opened Wrappers
  import opened Toast

  /** `a` and `b` are equal up to ASCII case. */
  predicate SameIgnoringCase(a: string, b: string)
  {
    |a| == |b| && forall i :: 0 <= i < |a| ==> Fold(a[i]) == Fold(b[i])
  }

  /** `s` holds `lit`, up to ASCII case, starting at `p`. */
  predicate LiteralAt(s: string, p: nat, lit: string)
  {
    p + |lit| <= |s| && SameIgnoringCase(s[p..p + |lit|], lit)
  }

  /** The length of the longest run starting at `i` of characters that are
      not in `stop`: what a greedy `[^...]+` consumes. */
  function RunLength(s: string, i: nat, stop: set<char>): (n: nat)
    ensures i + n <= |s| || (i > |s| && n == 0)
    ensures forall k :: i <= k < i + n ==> s[k] !in stop
    ensures i + n < |s| ==> s[i + n] in stop
    decreases |s| - i
  {
    if i >= |s| || s[i] in stop then 0 else 1 + RunLength(s, i + 1, stop)
  }

  const StarPrefix: string := "filename*=UTF-8''"
  const PlainPrefix: string := "filename="

  /** Which named group took part in a match, and its text. */
  datatype Group = Utf(text: string) | Plain(text: string)

  /** The characters that end the `utf` group and the `plain` group. */
  const UtfStop: set<char> := {';'}
  const PlainStop: set<char> := {'"', ';'}

  /** The text a greedy run takes holds no stop character. */
  lemma RunAvoids(s: string, i: nat, stop: set<char>, c: char)
    requires RunLength(s, i, stop) > 0 && c in stop
    ensures i + RunLength(s, i, stop) <= |s|
    ensures c !in s[i..i + RunLength(s, i, stop)]
  {
    var w := s[i..i + RunLength(s, i, stop)];
    forall k | 0 <= k < |w|
      ensures w[k] != c
    {
      assert w[k] == s[i + k];
    }
  }

  /** The first alternative at `p`: `filename*=UTF-8''` and a non-empty
      run without `;`, whose text is the `utf` group. */
  function UtfAt(s: string, p: nat): (t: Option<string>)
    ensures t.Some? ==> t.value != [] && ';' !in t.value
  {
    var q := p + |StarPrefix|;
    if LiteralAt(s, p, StarPrefix) && RunLength(s, q, UtfStop) > 0 then
      RunAvoids(s, q, UtfStop, ';');
      Some(s[q..q + RunLength(s, q, UtfStop)])
    else None
  }

  /** The second alternative at `p`: `filename=`, an optional quote and a
      non-empty run without `"` or `;`, whose text is the `plain` group. The
      quote is taken when a non-empty run still follows it. */
  function PlainAt(s: string, p: nat): (t: Option<string>)
    ensures t.Some? ==> t.value != [] && ';' !in t.value && '"' !in t.value
  {
    if !LiteralAt(s, p, PlainPrefix) then None
    else
      var v := p + |PlainPrefix|;
      var w := if v < |s| && s[v] == '"' && RunLength(s, v + 1, PlainStop) > 0 then v + 1 else v;
      if RunLength(s, w, PlainStop) > 0 then
        RunAvoids(s, w, PlainStop, ';');
        RunAvoids(s, w, PlainStop, '"');
        Some(s[w..w + RunLength(s, w, PlainStop)])
      else None
  }

  /** The match of the pattern that starts exactly at `p`, if any: the first
      alternative is tried first. */
  function MatchAt(s: string, p: nat): (g: Option<Group>)
    ensures g.Some? && g.value.Utf? ==> g.value.text != [] && ';' !in g.value.text
    ensures g.Some? && g.value.Plain? ==> g.value.text != [] && ';' !in g.value.text && '"' !in g.value.text
  {
    match UtfAt(s, p)
    case Some(t) => Some(Utf(t))
    case None =>
      match PlainAt(s, p)
      case Some(t) => Some(Plain(t))
      case None => None
  }

  /** `re.exec(s)` from position `from`: the leftmost position at which the
      pattern matches, and its groups. */
  function Exec(s: string, from: nat): (m: Option<(nat, Group)>)
    ensures m.Some? ==> from <= m.value.0 <= |s| && MatchAt(s, m.value.0) == Some(m.value.1)
    ensures m.Some? ==> forall j :: from <= j < m.value.0 ==> MatchAt(s, j) == None
    ensures m.None? ==> forall j :: from <= j <= |s| ==> MatchAt(s, j) == None
    decreases |s| - from
  {
    if from > |s| then None
    else if MatchAt(s, from).Some? then Some((from, MatchAt(s, from).value))
    else Exec(s, from + 1)
  }

  /** JavaScript's WhiteSpace and LineTerminator characters, which `trim`
      removes. */
  predicate IsSpace(c: char)
  {
    || c == '\t' || c == '\n' || c == '\U{000B}' || c == '\U{000C}' || c == '\r' || c == ' '
    || c == '\U{00A0}' || c == '\U{1680}' || ('\U{2000}' <= c <= '\U{200A}')
    || c == '\U{2028}' || c == '\U{2029}' || c == '\U{202F}' || c == '\U{205F}'
    || c == '\U{3000}' || c == '\U{FEFF}'
  }

  /** The index of the first character at or after `i` that is not white
      space, or `|s|`. */
  function Lead(s: string, i: nat): (a: nat)
    requires i <= |s|
    ensures i <= a <= |s|
    ensures forall k :: i <= k < a ==> IsSpace(s[k])
    ensures a < |s| ==> !IsSpace(s[a])
    decreases |s| - i
  {
    if i < |s| && IsSpace(s[i]) then Lead(s, i + 1) else i
  }

  /** The end of the last character before `j`, and not before `lo`, that
      is not white space, or `lo`. */
  function Trail(s: string, lo: nat, j: nat): (b: nat)
    requires lo <= j <= |s|
    ensures lo <= b <= j
    ensures forall k :: b <= k < j ==> IsSpace(s[k])
    ensures b > lo ==> !IsSpace(s[b - 1])
    decreases j
  {
    if j > lo && IsSpace(s[j - 1]) then Trail(s, lo, j - 1) else j
  }

  /** `s.trim()`: the slice of `s` that neither starts nor ends with white
      space, with only white space cut off around it. */
  function Trim(s: string): (r: string)
    ensures r != [] ==> !IsSpace(r[0]) && !IsSpace(r[|r| - 1])
    ensures var a := Lead(s, 0);
      && a + |r| <= |s| && r == s[a..a + |r|]
      && (forall k :: 0 <= k < a ==> IsSpace(s[k]))
      && (forall k :: a + |r| <= k < |s| ==> IsSpace(s[k]))
  {
    var a := Lead(s, 0);
    s[a..Trail(s, a, |s|)]
  }

  /** Trimming twice is trimming once. */
  lemma {:induction false} TrimIdempotent(s: string)
    ensures Trim(Trim(s)) == Trim(s)
  {
    var r := Trim(s);
    assert Lead(r, 0) == 0;
    assert Trail(r, 0, |r|) == |r|;
    assert r[0..|r|] == r;
  }

  /** Trimming adds no character. */
  lemma TrimAvoids(t: string, c: char)
    requires c !in t
    ensures c !in Trim(t)
  {
    var a := Lead(t, 0);
    var r := Trim(t);
    forall k | 0 <= k < |r|
      ensures r[k] != c
    {
      assert r[k] == t[a + k];
    }
  }

  /** The name a match gives: its `utf` group percent-decoded and trimmed,
      or else its `plain` group trimmed, an absent group reading as "".
      None when decoding throws. */
  function NameOfMatch(m: Option<(nat, Group)>, decode: string -> Option<string>): (r: Option<string>)
    ensures m.None? ==> r == Some("")
    ensures m.Some? && m.value.1.Plain? ==> r == Some(Trim(m.value.1.text))
    ensures m.Some? && m.value.1.Utf? && m.value.1.text != "" ==>
      r == if decode(m.value.1.text).None? then None else Some(Trim(decode(m.value.1.text).value))
  {
    var utf := if m.Some? && m.value.1.Utf? then m.value.1.text else "";
    var plain := if m.Some? && m.value.1.Plain? then m.value.1.text else "";
    // decodeURIComponent("") is ""
    var decoded := if utf == "" then Some("") else decode(utf);
    match decoded
    case None => None
    case Some(d) => Some(Or(Trim(d), Trim(plain)))
  }

  /** `headerFilename`: the name given by the first match in the header. */
  function HeaderFilename(cd: string, decode: string -> Option<string>): (r: Option<string>)
  {
    NameOfMatch(Exec(cd, 0), decode)
  }

  /** When the first filename parameter is the plain one, it names the file
      and decoding is never attempted, even if a `filename*` follows. */
  lemma {:induction false} PlainFirstIsUsed(cd: string, decode: string -> Option<string>)
    requires Exec(cd, 0).Some? && Exec(cd, 0).value.1.Plain?
    ensures HeaderFilename(cd, decode) == Some(Trim(Exec(cd, 0).value.1.text))
    ensures HeaderFilename(cd, decode).value != [] ==> ';' !in HeaderFilename(cd, decode).value
  {
    var m := Exec(cd, 0);
    assert HeaderFilename(cd, decode) == NameOfMatch(m, decode);
    TrimAvoids(m.value.1.text, ';');
  }

  /** A run bounded by a stop character (or the end) has the length the
      greedy match takes. */
  lemma {:induction false} RunLengthIs(s: string, i: nat, n: nat, stop: set<char>)
    requires i + n <= |s|
    requires forall k :: i <= k < i + n ==> s[k] !in stop
    requires i + n == |s| || s[i + n] in stop
    ensures RunLength(s, i, stop) == n
    decreases n
  {
    if n > 0 {
      RunLengthIs(s, i + 1, n - 1, stop);
    }
  }

  /** A header that starts with a plain `filename=` parameter is named by
      it, whatever follows, a `filename*` parameter included. */
  lemma {:induction false} PlainParameterFirst(name: string, rest: string, decode: string -> Option<string>)
    requires name != [] && '"' !in name && ';' !in name
    requires rest == [] || rest[0] == ';' || rest[0] == '"'
    ensures HeaderFilename(PlainPrefix + name + rest, decode) == Some(Trim(name))
  {
    var s := PlainPrefix + name + rest;
    var v := |PlainPrefix|;
    assert s[..v] == PlainPrefix;
    assert s[v..v + |name|] == name;
    assert LiteralAt(s, 0, PlainPrefix);
    assert !LiteralAt(s, 0, StarPrefix) by {
      assert s[8] == '=';
      if |s| >= |StarPrefix| {
        assert s[0..|StarPrefix|][8] == '=';
      }
    }
    assert s[v] == name[0];
    forall k | v <= k < v + |name|
      ensures s[k] !in PlainStop
    {
      assert s[k] == name[k - v];
    }
    if rest != [] {
      assert s[v + |name|] == rest[0];
    }
    RunLengthIs(s, v, |name|, PlainStop);
    assert UtfAt(s, 0) == None;
    assert PlainAt(s, 0) == Some(name);
    assert MatchAt(s, 0) == Some(Plain(name));
  }

  /** A header that starts with an extended `filename*=UTF-8''` parameter is
      named by its decoded value, whatever follows, a plain parameter
      included; decoding that throws fails the export. */
  lemma {:induction false} ExtendedParameterFirst(value: string, rest: string, decode: string -> Option<string>)
    requires value != [] && ';' !in value
    requires rest == [] || rest[0] == ';'
    ensures HeaderFilename(StarPrefix + value + rest, decode)
      == if decode(value).None? then None else Some(Trim(decode(value).value))
  {
    var s := StarPrefix + value + rest;
    var q := |StarPrefix|;
    assert s[..q] == StarPrefix;
    assert s[q..q + |value|] == value;
    assert LiteralAt(s, 0, StarPrefix);
    forall k | q <= k < q + |value|
      ensures s[k] !in UtfStop
    {
      assert s[k] == value[k - q];
    }
    if rest != [] {
      assert s[q + |value|] == rest[0];
    }
    RunLengthIs(s, q, |value|, UtfStop);
    assert UtfAt(s, 0) == Some(value);
    assert MatchAt(s, 0) == Some(Utf(value));
    assert Exec(s, 0) == Some((0, Utf(value)));
  }

  /** `filename`: the header's name when it is not empty, otherwise
      `expenses_<today>.pdf`; None when decoding throws. */
  function ExportName(cd: string, decode: string -> Option<string>, today: string): (r: Option<string>)
    ensures r.None? <==> HeaderFilename(cd, decode).None?
    ensures r.Some? && HeaderFilename(cd, decode).value != "" ==> r.value == HeaderFilename(cd, decode).value
    ensures r.Some? && HeaderFilename(cd, decode).value == "" ==> r.value == "expenses_" + today + ".pdf"
  {
    match HeaderFilename(cd, decode)
    case None => None
    case Some(h) => Some(Or(h, "expenses_" + today + ".pdf"))
  }

  /** The chosen name is never empty and never begins with white space, and
      a header without any filename parameter gives the dated name. */
  lemma {:induction false} ExportNameShape(cd: string, decode: string -> Option<string>, today: string)
    requires ExportName(cd, decode, today).Some?
    ensures ExportName(cd, decode, today).value != []
    ensures !IsSpace(ExportName(cd, decode, today).value[0])
    ensures Exec(cd, 0).None? ==> ExportName(cd, decode, today) == Some("expenses_" + today + ".pdf")
  {
    var h := HeaderFilename(cd, decode).value;
    if h == "" {
      assert ("expenses_" + today + ".pdf")[0] == 'e';
    }
  }

  /** What the export does: the name it downloads under (None when nothing
      is downloaded) and the toast it shows. The reply is the
      `Content-Disposition` header ("" when absent); a thrown error carries
      its message, and `decodeError` is the message of a decoding error. */
  datatype Export = Export(download: Option<string>, notice: Notice)

  function ExportPdf(reply: Outcome<string>, decode: string -> Option<string>, decodeError: string, today: string): (x: Export)
    ensures x.download.Some? <==> reply.Ok? && ExportName(reply.value, decode, today).Some?
    ensures x.download.Some? ==>
      x.download == ExportName(reply.value, decode, today) && x.notice == Notice("success", "Exported: " + x.download.value)
    ensures x.download.None? ==> x.notice.kind == "error" && x.notice.text != ""
    ensures reply.Refused? ==> x.notice == Notice("error", "Export failed")
    ensures reply.Failed? ==> x.notice == Notice("error", Or(reply.message, "Export failed"))
  {
    match reply
    case Refused(_) => Export(None, Notice("error", "Export failed"))
    case Failed(m) => Export(None, Notice("error", Or(m, "Export failed")))
    case Ok(cd) =>
      match ExportName(cd, decode, today)
      case None => Export(None, Notice("error", Or(decodeError, "Export failed")))
      case Some(name) => Export(Some(name), Notice("success", "Exported: " + name))
  }
}
