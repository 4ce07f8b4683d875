/**
  The short vacancy card sent to the chat: HTML escaping of user-supplied text,
  field fallbacks over a loosely typed vacancy record, the fixed line layout and
  the truncation of a long description at a word boundary.
 */
module ShortCard {
  import opened Wrappers
  import opened PyText
  import opened Json

  // ---------------------------------------------------------------------------
  // HTML escaping

  /** The characters that must not reach the chat's HTML parser unescaped. */
  const Specials: set<char> := {'&', '<', '>'}

  /** The HTML entity written for a special character. */
  function Entity(c: char): string {
    if c == '&' then "&amp;" else if c == '<' then "&lt;" else if c == '>' then "&gt;" else [c]
  }

  /** Reference definition: every character of `s` that is in `cs` is replaced by
      its entity, every other character is kept. */
  function Encode(s: string, cs: set<char>): string {
    if s == [] then [] else (if s[0] in cs then Entity(s[0]) else [s[0]]) + Encode(s[1..], cs)
  }

  lemma {:induction false} EncodeNothing(s: string)
    ensures Encode(s, {}) == s
  {
    if s != [] {
      EncodeNothing(s[1..]);
    }
  }

  lemma {:induction false} EncodeNoSpecials(s: string, cs: set<char>)
    requires forall k :: 0 <= k < |s| ==> s[k] !in cs
    ensures Encode(s, cs) == s
  {
    if s != [] {
      EncodeNoSpecials(s[1..], cs);
    }
  }

  lemma {:induction false} EncodeNoAngles(s: string)
    ensures '<' !in Encode(s, Specials) && '>' !in Encode(s, Specials)
  {
    if s != [] {
      EncodeNoAngles(s[1..]);
    }
  }

  /** The encoding of a character other than `c`, before `c` is escaped, holds no `c`. */
  lemma NoCharInside(x: string, d: char, cs: set<char>, c: char, e: string)
    requires c in Specials && cs <= Specials && c !in cs && d != c
    requires c == '&' ==> cs == {}
    requires x == if d in cs then Entity(d) else [d]
    ensures forall i :: 0 <= i < |x| ==> !StartsWith((x + e)[i..], [c])
  {
    forall i | 0 <= i < |x| ensures !StartsWith((x + e)[i..], [c]) {
      assert (x + e)[i..][..1] == [x[i]];
    }
  }

  /** One pass of `replace(c, Entity(c))` turns an encoding over `cs` into one over `cs + {c}`. */
  lemma {:induction false} EscapePass(s: string, cs: set<char>, c: char)
    requires c in Specials && cs <= Specials && c !in cs
    requires c == '&' ==> cs == {}
    ensures ReplaceAll(Encode(s, cs), [c], Entity(c)) == Encode(s, cs + {c})
  {
    if s != [] {
      var x := if s[0] in cs then Entity(s[0]) else [s[0]];
      var e := Encode(s[1..], cs);
      assert Encode(s, cs) == x + e;
      EscapePass(s[1..], cs, c);
      if s[0] == c {
        assert StartsWith(x + e, [c]);
        assert (x + e)[1..] == e;
      } else {
        NoCharInside(x, s[0], cs, c, e);
        ReplaceAllSkips(x, e, [c], Entity(c));
      }
    }
  }

  /** The encoding of a character other than `c` holds no occurrence of the
      entity of `c`, even when followed by more text. */
  lemma NoEntityInside(x: string, d: char, cs: set<char>, c: char, e: string)
    requires cs <= Specials && '&' in cs && c in cs && d != c
    requires x == if d in cs then Entity(d) else [d]
    ensures forall i :: 0 <= i < |x| ==> !StartsWith((x + e)[i..], Entity(c))
  {
    forall i | 0 <= i < |x| ensures !StartsWith((x + e)[i..], Entity(c)) {
      if i == 0 {
        if |x| > 1 {
          assert (x + e)[0..][1] == x[1] != Entity(c)[1];
        } else {
          assert (x + e)[0..][0] == x[0] != '&';
        }
      } else {
        assert (x + e)[i..][0] == x[i] != '&';
      }
    }
  }

  /** One pass of `replace(Entity(c), c)` turns an encoding over `cs` into one over `cs - {c}`;
      `&amp;` must be undone last, since every entity begins with `&`. */
  lemma {:induction false} UnescapePass(s: string, cs: set<char>, c: char)
    requires cs <= Specials && '&' in cs && c in cs
    requires c == '&' ==> cs == {'&'}
    ensures ReplaceAll(Encode(s, cs), Entity(c), [c]) == Encode(s, cs - {c})
  {
    if s != [] {
      var x := if s[0] in cs then Entity(s[0]) else [s[0]];
      var e := Encode(s[1..], cs);
      assert Encode(s, cs) == x + e;
      UnescapePass(s[1..], cs, c);
      if s[0] == c {
        assert StartsWith(x + e, Entity(c));
        assert (x + e)[|Entity(c)|..] == e;
      } else {
        NoEntityInside(x, s[0], cs, c, e);
        ReplaceAllSkips(x, e, Entity(c), [c]);
      }
    }
  }

  /** `_escape_html(s)`: `(s or "")` with `&`, `<` and `>` replaced, in that order. */
  function EscapeHtml(s: Option<string>): string {
    var t := if s.Some? then s.value else "";
    ReplaceAll(ReplaceAll(ReplaceAll(t, "&", "&amp;"), "<", "&lt;"), ">", "&gt;")
  }

  /** The three passes together encode every special character of the text at
      once, so an `&` written by a later pass is never escaped again. */
  lemma EscapeHtmlEncodes(s: Option<string>)
    ensures EscapeHtml(s) == Encode(if s.Some? then s.value else "", Specials)
  {
    var t := if s.Some? then s.value else "";
    var amp := ReplaceAll(t, "&", "&amp;");
    assert amp == Encode(t, {'&'}) by {
      EncodeNothing(t);
      EscapePass(t, {}, '&');
      assert {} + {'&'} == {'&'};
    }
    var lt := ReplaceAll(amp, "<", "&lt;");
    assert lt == Encode(t, {'&', '<'}) by {
      EscapePass(t, {'&'}, '<');
      assert {'&'} + {'<'} == {'&', '<'};
    }
    EscapePass(t, {'&', '<'}, '>');
    assert {'&', '<'} + {'>'} == Specials;
  }

  /** Escaped text holds no `<` or `>`; `None` and `""` escape to `""`. */
  lemma EscapeHtmlSafe(s: Option<string>)
    ensures '<' !in EscapeHtml(s) && '>' !in EscapeHtml(s)
    ensures s == None || s == Some("") ==> EscapeHtml(s) == ""
  {
    EscapeHtmlEncodes(s);
    EncodeNoAngles(if s.Some? then s.value else "");
  }

  /** The inverse of the escaping: `&lt;`, then `&gt;`, then `&amp;`. */
  function UnescapeHtml(s: string): string {
    ReplaceAll(ReplaceAll(ReplaceAll(s, "&lt;", "<"), "&gt;", ">"), "&amp;", "&")
  }

  /** Escaping loses nothing: unescaping gives the original text back. */
  lemma EscapeRoundTrip(s: string)
    ensures UnescapeHtml(EscapeHtml(Some(s))) == s
  {
    EscapeHtmlEncodes(Some(s));
    UnescapePass(s, Specials, '<');
    assert Specials - {'<'} == {'&', '>'};
    UnescapePass(s, {'&', '>'}, '>');
    assert {'&', '>'} - {'>'} == {'&'};
    UnescapePass(s, {'&'}, '&');
    assert {'&'} - {'&'} == {};
    EncodeNothing(s);
  }

  /** Text without `&`, `<` and `>` is not changed by escaping. */
  lemma EscapeIdentity(s: string)
    requires forall k :: 0 <= k < |s| ==> s[k] !in Specials
    ensures EscapeHtml(Some(s)) == s
  {
    EscapeHtmlEncodes(Some(s));
    EncodeNoSpecials(s, Specials);
  }

  // ---------------------------------------------------------------------------
  // Description truncation

  /** The ellipsis appended to a cut description. */
  const Ellipsis: char := '\U{2026}'

  /** `desc[:max_len].rsplit(" ", 1)[0] + "…"` when `desc` is longer than `max_len`,
      otherwise `desc` itself. */
  function ShortenDescription(desc: string, maxLen: int): string {
    if |desc| > maxLen then RsplitHead(SlicePrefix(desc, maxLen), ' ') + [Ellipsis] else desc
  }

  /** A description within the limit is kept. A longer one becomes a prefix of
      itself plus the ellipsis: cut after the last space of its first `maxLen`
      characters (that space dropped), or, without such a space, cut at
      exactly `maxLen` characters. A negative `maxLen` counts from the end, as
      Python slicing does. */
  lemma ShortenDescriptionSpec(desc: string, maxLen: int)
    ensures |desc| <= maxLen ==> ShortenDescription(desc, maxLen) == desc
    ensures var r := ShortenDescription(desc, maxLen);
      |desc| > maxLen ==>
        && 1 <= |r| <= |desc| + 1 && r[|r| - 1] == Ellipsis
        && r[..|r| - 1] == desc[..|r| - 1]
    ensures var r := ShortenDescription(desc, maxLen);
      |desc| > maxLen >= 0 ==> |r| <= maxLen + 1
    ensures var r := ShortenDescription(desc, maxLen);
      |desc| > maxLen >= 0 && ' ' in desc[..maxLen] ==>
        && 1 <= |r| <= maxLen
        && desc[|r| - 1] == ' '
        && ' ' !in desc[|r|..maxLen]
    ensures |desc| > maxLen >= 0 && ' ' !in desc[..maxLen] ==>
      ShortenDescription(desc, maxLen) == desc[..maxLen] + [Ellipsis]
  {
    if |desc| > maxLen {
      var cut := SlicePrefix(desc, maxLen);
      var head := RsplitHead(cut, ' ');
      assert desc[..|head|] == head;
      assert maxLen >= 0 ==> cut == desc[..maxLen];
      assert maxLen >= 0 && ' ' in cut ==>
        desc[|head|] == cut[|head|] && desc[|head| + 1..maxLen] == cut[|head| + 1..];
    }
  }

  // ---------------------------------------------------------------------------
  // The card

  /** The card also accepts a `link` key, after the two payload link keys. */
  const CardUrlKeys: seq<string> := ["url", "alternate_url", "link"]
  const DescriptionKeys: seq<string> := ["description", "snippet"]
  const DefaultTitle: string := "Вакансия"
  const NoDescription: string := "Описание не указано."
  const CallToAction: string := "👇 Полное описание — по кнопке ниже"
  /** The debug map every card carries. */
  const FullDescriptionMode: map<string, string> := map["mode" := "full_description"]

  /** What the card function returns: the message text and its debug map. */
  datatype Card = Card(text: string, debug: map<string, string>)

  /** `vac.get("salary_text") or vac.get("salary_str") or vac.get("salary")`, with a dict
      replaced by `None`. */
  function ChosenSalary(vac: Payload): (r: Json)
    ensures !r.Object?
    ensures Truthy(r) <==>
      exists i :: 0 <= i < 3 && Truthy(Get(vac, ["salary_text", "salary_str", "salary"][i]))
        && !Get(vac, ["salary_text", "salary_str", "salary"][i]).Object?
        && forall j :: 0 <= j < i ==> !Truthy(Get(vac, ["salary_text", "salary_str", "salary"][j]))
    ensures var v := Or([Get(vac, "salary_text"), Get(vac, "salary_str"), Get(vac, "salary")]);
      r == if v.Object? then Null else v
  {
    var keys := ["salary_text", "salary_str", "salary"];
    var vs := [Get(vac, keys[0]), Get(vac, keys[1]), Get(vac, keys[2])];
    assert forall i :: 0 <= i < 3 ==> vs[i] == Get(vac, keys[i]);
    var s := Or(vs);
    if s.Object? then Null else s
  }

  const TitleOpen: string := "💼 <b>"
  const CompanyOpen: string := "🏢 "
  const SalaryOpen: string := "💰 <b>"
  const BoldClose: string := "</b>"

  function TitleLine(title: string): string { TitleOpen + EscapeHtml(Some(title)) + BoldClose }
  function CompanyLine(company: string): string { CompanyOpen + EscapeHtml(Some(company)) }
  function SalaryLine(salary: Json): string { SalaryOpen + EscapeHtml(Some(Show(salary))) + BoldClose }

  /** Every text field the card reads is a string or falls back to the default. */
  predicate FieldsReadable(vac: Payload) {
    && TextField(vac, TitleKeys, DefaultTitle).Ok?
    && TextField(vac, CompanyKeys, "").Ok?
    && TextField(vac, CardUrlKeys, "").Ok?
    && TextField(vac, DescriptionKeys, "").Ok?
  }

  /** No `<` or `>` in `s`: it cannot open or close a tag. */
  predicate NoAngles(s: string) {
    '<' !in s && '>' !in s
  }

  /** `l` is `prefix`, then markup-free text, then `</b>`. */
  predicate BoldAfter(l: string, prefix: string) {
    && |prefix| + 4 <= |l|
    && l[..|prefix|] == prefix
    && l[|l| - 4..] == BoldClose
    && NoAngles(l[|prefix|..|l| - 4])
  }

  /** The only markup in a card line is the bold tag the card itself writes
      around the title or the salary. */
  predicate MarkupSafe(l: string) {
    NoAngles(l) || BoldAfter(l, TitleOpen) || BoldAfter(l, SalaryOpen)
  }

  /** The description line for an escaped description: shortened when it is
      longer than `maxLen`, or a placeholder when there is none. */
  function BodyLine(desc: string, maxLen: int): string {
    if desc == "" then NoDescription else ShortenDescription(desc, maxLen)
  }

  /** The card's lines, in order: the title; the company iff there is one; the
      salary iff it is truthy; a blank line; the description line; and a blank
      line with the call to action iff there is a URL. */
  function CardLines(title: string, company: string, url: string, salary: Json, desc: string, maxLen: int): seq<string> {
    [TitleLine(title)]
    + (if company != "" then [CompanyLine(company)] else [])
    + (if Truthy(salary) then [SalaryLine(salary)] else [])
    + ["", BodyLine(EscapeHtml(Some(desc)), maxLen)]
    + (if url != "" then ["", CallToAction] else [])
  }

  /** The lines of the card for a vacancy whose text fields are readable. */
  function VacancyLines(vac: Payload, maxLen: int): seq<string>
    requires FieldsReadable(vac)
  {
    CardLines(
      TextField(vac, TitleKeys, DefaultTitle).value,
      TextField(vac, CompanyKeys, "").value,
      TextField(vac, CardUrlKeys, "").value,
      ChosenSalary(vac),
      TextField(vac, DescriptionKeys, "").value,
      maxLen)
  }

  lemma BoldShape(prefix: string, e: string)
    requires NoAngles(e)
    ensures BoldAfter(prefix + e + BoldClose, prefix)
  {
    var l := prefix + e + BoldClose;
    assert l[..|prefix|] == prefix;
    assert l[|l| - 4..] == BoldClose;
    assert l[|prefix|..|l| - 4] == e;
  }

  lemma ShortenNoAngles(desc: string, maxLen: int)
    requires NoAngles(desc)
    ensures NoAngles(ShortenDescription(desc, maxLen))
  {
    var r := ShortenDescription(desc, maxLen);
    ShortenDescriptionSpec(desc, maxLen);
    if |desc| > maxLen {
      assert r == r[..|r| - 1] + [Ellipsis];
      assert forall k :: 0 <= k < |r| - 1 ==> r[k] == desc[k];
    }
  }

  /** Every line is markup-safe. */
  predicate AllSafe(ls: seq<string>) {
    forall i :: 0 <= i < |ls| ==> MarkupSafe(ls[i])
  }

  lemma AllSafeConcat(a: seq<string>, b: seq<string>)
    requires AllSafe(a) && AllSafe(b)
    ensures AllSafe(a + b)
  {
    forall i | 0 <= i < |a + b| ensures MarkupSafe((a + b)[i]) {
      if i >= |a| {
        assert (a + b)[i] == b[i - |a|];
      }
    }
  }

  lemma CallToActionPlain()
    ensures NoAngles(CallToAction)
  {
  }

  lemma NoDescriptionPlain()
    ensures NoAngles(NoDescription)
  {
  }

  lemma TitleLineSafe(title: string)
    ensures MarkupSafe(TitleLine(title))
  {
    EscapeHtmlSafe(Some(title));
    BoldShape(TitleOpen, EscapeHtml(Some(title)));
  }

  lemma CompanyLineSafe(company: string)
    ensures MarkupSafe(CompanyLine(company))
  {
    EscapeHtmlSafe(Some(company));
    var l := CompanyLine(company);
    assert NoAngles(CompanyOpen);
    assert l[..|CompanyOpen|] == CompanyOpen;
    assert l[|CompanyOpen|..] == EscapeHtml(Some(company));
    assert l == l[..|CompanyOpen|] + l[|CompanyOpen|..];
  }

  lemma SalaryLineSafe(salary: Json)
    ensures MarkupSafe(SalaryLine(salary))
  {
    EscapeHtmlSafe(Some(Show(salary)));
    BoldShape(SalaryOpen, EscapeHtml(Some(Show(salary))));
  }

  lemma BodyLineSafe(desc: string, maxLen: int)
    ensures MarkupSafe(BodyLine(EscapeHtml(Some(desc)), maxLen))
  {
    var e := EscapeHtml(Some(desc));
    EscapeHtmlSafe(Some(desc));
    ShortenNoAngles(e, maxLen);
    NoDescriptionPlain();
  }

  lemma HeaderSafe(title: string, company: string, salary: Json)
    ensures AllSafe([TitleLine(title)]
      + (if company != "" then [CompanyLine(company)] else [])
      + (if Truthy(salary) then [SalaryLine(salary)] else []))
  {
    var t := [TitleLine(title)];
    TitleLineSafe(title);
    var c := if company != "" then [CompanyLine(company)] else [];
    CompanyLineSafe(company);
    var m := if Truthy(salary) then [SalaryLine(salary)] else [];
    SalaryLineSafe(salary);
    AllSafeConcat(t, c);
    AllSafeConcat(t + c, m);
  }

  lemma TailSafe(url: string, desc: string, maxLen: int)
    ensures AllSafe(["", BodyLine(EscapeHtml(Some(desc)), maxLen)] + (if url != "" then ["", CallToAction] else []))
  {
    var b := ["", BodyLine(EscapeHtml(Some(desc)), maxLen)];
    BodyLineSafe(desc, maxLen);
    assert MarkupSafe("");
    var u := if url != "" then ["", CallToAction] else [];
    CallToActionPlain();
    AllSafeConcat(b, u);
  }

  /** Whatever the vacancy holds, the only tags in the card are the two bold
      tags the card writes itself: user text never carries `<` or `>`. */
  lemma CardLinesMarkupSafe(title: string, company: string, url: string, salary: Json, desc: string, maxLen: int)
    ensures AllSafe(CardLines(title, company, url, salary, desc, maxLen))
  {
    var h := [TitleLine(title)]
      + (if company != "" then [CompanyLine(company)] else [])
      + (if Truthy(salary) then [SalaryLine(salary)] else []);
    var b := ["", BodyLine(EscapeHtml(Some(desc)), maxLen)];
    var u := if url != "" then ["", CallToAction] else [];
    HeaderSafe(title, company, salary);
    TailSafe(url, desc, maxLen);
    AllSafeConcat(h, b + u);
    assert h + b + u == h + (b + u);
  }

  /** Escaping never shortens a text: each character becomes itself or a longer entity. */
  lemma {:induction false} EncodeLonger(s: string, cs: set<char>)
    ensures |Encode(s, cs)| >= |s|
  {
    if s != [] {
      EncodeLonger(s[1..], cs);
    }
  }

  /** The card's layout by position: `h` header lines (the title, then the
      company iff there is one, then the salary iff it is truthy), a blank
      line, the description line, which is the placeholder exactly when the
      raw description is empty, and, iff there is a URL, a blank line and the
      call to action. */
  lemma CardLinesShape(title: string, company: string, url: string, salary: Json, desc: string, maxLen: int)
    ensures var lines := CardLines(title, company, url, salary, desc, maxLen);
      var h := 1 + (if company != "" then 1 else 0) + (if Truthy(salary) then 1 else 0);
      && |lines| == h + 2 + (if url != "" then 2 else 0)
      && lines[0] == TitleLine(title)
      && (company != "" ==> lines[1] == CompanyLine(company))
      && (Truthy(salary) ==> lines[h - 1] == SalaryLine(salary))
      && lines[h] == ""
      && lines[h + 1] == (if desc == "" then NoDescription else ShortenDescription(EscapeHtml(Some(desc)), maxLen))
      && (url != "" ==> lines[h + 2] == "" && lines[h + 3] == CallToAction)
  {
    EscapeHtmlEncodes(Some(desc));
    EncodeLonger(desc, Specials);
    EscapeHtmlSafe(Some(desc));
  }

  /** The card's lines, appended one by one as `make_short_card_embed` does. */
  method BuildLines(title: string, company: string, url: string, salary: Json, description: string, maxLen: int)
    returns (lines: seq<string>)
    ensures lines == CardLines(title, company, url, salary, description, maxLen)
  {
    var desc := EscapeHtml(Some(description));
    ghost var body := BodyLine(desc, maxLen);
    lines := [TitleLine(title)];
    if company != "" {
      lines := lines + [CompanyLine(company)];
    }
    ghost var header := [TitleLine(title)] + (if company != "" then [CompanyLine(company)] else []);
    assert lines == header;
    if Truthy(salary) {
      lines := lines + [SalaryLine(salary)];
    }
    header := header + (if Truthy(salary) then [SalaryLine(salary)] else []);
    assert lines == header;
    lines := lines + [""];
    assert lines == header + [""];
    assert header + ["", body] == (header + [""]) + [body] by {
      assert ["", body] == [""] + [body];
    }
    if desc != "" {
      assert body == ShortenDescription(desc, maxLen);
      if |desc| > maxLen {
        desc := ShortenDescription(desc, maxLen);
      }
      assert desc == body;
      lines := lines + [desc];
    } else {
      assert body == NoDescription;
      lines := lines + [NoDescription];
    }
    assert lines == header + ["", body];
    if url != "" {
      lines := lines + [""];
      lines := lines + [CallToAction];
    }
  }

  /** `make_short_card_embed(vac, max_len=maxLen)`. Raises (AttributeError) exactly
      when a chosen text field is not a string; otherwise the text is the card's
      lines joined by newlines and stripped. */
  method MakeShortCardEmbed(vac: Payload, maxLen: int) returns (r: Result<Card, PyError>)
    ensures r.Ok? <==> FieldsReadable(vac)
    ensures r.Ok? ==> r.value.debug == FullDescriptionMode
    ensures r.Ok? ==> r.value.text == Strip(Join("\n", VacancyLines(vac, maxLen)))
  {
    var title := TextField(vac, TitleKeys, DefaultTitle);
    if title.Err? { return Err(title.error); }
    var company := TextField(vac, CompanyKeys, "");
    if company.Err? { return Err(company.error); }
    var url := TextField(vac, CardUrlKeys, "");
    if url.Err? { return Err(url.error); }
    var salary := ChosenSalary(vac);
    var description := TextField(vac, DescriptionKeys, "");
    if description.Err? { return Err(description.error); }
    var lines := BuildLines(title.value, company.value, url.value, salary, description.value, maxLen);
    r := Ok(Card(Strip(Join("\n", lines)), FullDescriptionMode));
  }
}
