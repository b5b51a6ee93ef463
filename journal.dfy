/** Reading the journal channel back (cogs/data.py, `_read_journal_lines`):
    every message posted by a bot account contributes at most one entry, taken
    from its machine tag `[[DATA|kind|M|rate|admin_id]]` when one of its lines
    carries one, and otherwise from the human-readable sentence that `/data`
    writes above the tag.

    The two regular expressions `RE_TAG` and `RE_HUMAN` are modelled as
    deterministic matchers. Every quantifier in them is followed by a
    delimiter its own class cannot contain, so backtracking never changes the
    outcome and the greedy reading below is the only match; `NumLenExact`
    proves this for the number sub-pattern, which is the only place where two
    optional parts follow each other. */
module Journal {
  import opened Text
  import opened Decimal

  datatype Kind = Achat | Vente

  /** A journal entry (class `Line`); `euros` is `_calc_euros(m, rate)` in
      cents. */
  datatype Line = Line(kind: Kind, admin: string, adminId: Option<nat>,
                       mMillions: real, rate: real, euros: int)

  /** `Line.__init__`: the euro amount is derived from the other fields. */
  function MakeLine(kind: Kind, admin: string, adminId: Option<nat>, m: real, rate: real): (l: Line)
    ensures l.kind == kind && l.admin == admin && l.adminId == adminId
    ensures l.mMillions == m && l.rate == rate
    ensures Abs(l.euros as real / 100.0 - m * rate) <= 0.005
  {
    Line(kind, admin, adminId, m, rate, CalcEuros(m, rate))
  }

  /** What the reader sees of a channel message. */
  datatype Message = Message(authorIsBot: bool, content: string)

  // ---------------------------------------------------------------------------
  // The number sub-pattern [-+]?\d+(?:[.,]\d+)?
  // ---------------------------------------------------------------------------

  predicate IsSep(c: char) { c == '.' || c == ',' }

  function SignLen(s: string): (g: nat)
    ensures g <= |s|
  {
    if s != [] && (s[0] == '-' || s[0] == '+') then 1 else 0
  }

  /** The grammar of the number sub-pattern, stated on its own: an optional
      sign, then digits, optionally followed by a separator and digits. */
  predicate IsNum(t: string) { IsUnsignedNum(t[SignLen(t)..]) }

  predicate IsUnsignedNum(u: string) { (u != [] && AllDigits(u)) || exists k :: 0 < k < |u| - 1 && FractionAt(u, k) }

  /** `u` is digits, the separator at `k`, digits. */
  predicate FractionAt(u: string, k: int) {
    0 < k < |u| - 1 && AllDigits(u[..k]) && IsSep(u[k]) && AllDigits(u[k + 1..])
  }

  /** Length of the greedy match of the number sub-pattern at the start of
      `s`, if any. */
  function NumLen(s: string): (n: Option<nat>)
    ensures n.Some? ==> n.value <= |s|
  {
    var g := SignLen(s);
    var n :- UnsignedLen(s[g..]);
    Some(g + n)
  }

  function UnsignedLen(u: string): (n: Option<nat>)
    ensures n.Some? ==> n.value <= |u|
  {
    var k := LeadingDigits(u);
    if k == 0 then None
    else if k + 1 < |u| && IsSep(u[k]) && IsDigit(u[k + 1]) then
      Some(k + 1 + LeadingDigits(u[k + 1..]))
    else Some(k)
  }

  /** The number text at the start of `s` and what follows it. */
  function Num(s: string): (r: Option<(string, string)>)
    ensures r.Some? ==> r.value.0 + r.value.1 == s && IsNum(r.value.0)
  {
    var n :- NumLen(s);
    NumLenSound(s);
    assert s[..n] + s[n..] == s;
    Some((s[..n], s[n..]))
  }

  /** A character that can follow a complete number in either pattern. */
  predicate EndsNum(r: string) { r == [] || !(IsDigit(r[0]) || IsSep(r[0])) }

  // ---------------------------------------------------------------------------
  // RE_TAG = \[\[DATA\|(achat|vente)\|NUM\|NUM\|(\d{5,})\]\]  (case-insensitive)
  // ---------------------------------------------------------------------------

  /** The groups of a tag match; `kind` is the lower-cased `kind` group. */
  datatype TagMatch = TagMatch(kind: Kind, m: string, rate: string, adminId: string)

  predicate ValidTag(t: TagMatch) {
    IsNum(t.m) && IsNum(t.rate) && |t.adminId| >= 5 && AllDigits(t.adminId)
  }

  /** A case-insensitive literal at the start of `s`; `p` is lower case. */
  function Lit(s: string, p: string): (r: Option<string>)
    ensures r.Some? ==> |r.value| + |p| == |s| && r.value == s[|p|..]
  {
    if CiPrefix(s, p) then Some(s[|p|..]) else None
  }

  function KindWord(s: string): Option<(Kind, string)> {
    if CiPrefix(s, "achat") then Some((Achat, s[5..]))
    else if CiPrefix(s, "vente") then Some((Vente, s[5..]))
    else None
  }

  /** A number directly followed by `|`. */
  function NumField(s: string): (r: Option<(string, string)>)
    ensures r.Some? ==> IsNum(r.value.0)
  {
    var n :- Num(s);
    var rest :- Lit(n.1, "|");
    Some((n.0, rest))
  }

  /** A tag starting exactly at the start of `s`. */
  function MatchTag(s: string): (r: Option<TagMatch>)
    ensures r.Some? ==> ValidTag(r.value)
  {
    var s1 :- Lit(s, "[[data|");
    var k :- KindWord(s1);
    var s2 :- Lit(k.1, "|");
    var m :- NumField(s2);
    var rate :- NumField(m.1);
    var id :- AdminIdField(rate.1);
    Some(TagMatch(k.0, m.0, rate.0, id))
  }

  /** `(\d{5,})\]\]`: the digit run, at least five long, then `]]`. */
  function AdminIdField(s: string): (r: Option<string>)
    ensures r.Some? ==> |r.value| >= 5 && AllDigits(r.value)
  {
    var d := LeadingDigits(s);
    LeadingDigitsSpec(s);
    if d < 5 then None
    else
      var _ :- Lit(s[d..], "]]");
      Some(s[..d])
  }

  /** `RE_TAG.search(ln)`: the match at the leftmost position that has one. */
  function FindTag(ln: string): (r: Option<TagMatch>)
    ensures r.Some? ==> ValidTag(r.value)
  {
    if MatchTag(ln).Some? then MatchTag(ln)
    else if ln == [] then None
    else FindTag(ln[1..])
  }

  /** The first line, in order, on which `RE_TAG.search` succeeds. */
  function FirstTag(lines: seq<string>): (r: Option<TagMatch>)
    ensures r.Some? ==> ValidTag(r.value)
  {
    if lines == [] then None
    else if FindTag(lines[0]).Some? then FindTag(lines[0])
    else FirstTag(lines[1..])
  }

  // ---------------------------------------------------------------------------
  // RE_HUMAN = ^\s*(?:[^\w\s])?\s*\[([^\]]+)\]\s+a\s+(acheté|vendu)\s+NUM\s*M
  //            \s+au\s+taux\s+de\s+NUM\s*€/M     (case-insensitive, at start)
  // ---------------------------------------------------------------------------

  /** The groups of a human-line match; `action` is the lower-cased group. */
  datatype HumanMatch = HumanMatch(admin: string, action: string, m: string, rate: string)

  predicate ValidHuman(h: HumanMatch) {
    h.admin != [] && (h.action == "acheté" || h.action == "vendu") && IsNum(h.m) && IsNum(h.rate)
  }

  /** One or more whitespace characters (`\s+`), taken greedily. */
  function Ws1(s: string): Option<string> {
    if s != [] && IsSpace(s[0]) then Some(TrimLeft(s)) else None
  }

  function ActionWord(s: string): Option<(string, string)> {
    if CiPrefix(s, "acheté") then Some(("acheté", s[6..]))
    else if CiPrefix(s, "vendu") then Some(("vendu", s[5..]))
    else None
  }

  /** `\s+a\s+(acheté|vendu)\s+NUM\s*M\s+au\s+taux\s+de\s+NUM\s*€/M`. */
  function HumanTail(r: string): (t: Option<(string, string, string)>)
    ensures t.Some? ==> (t.value.0 == "acheté" || t.value.0 == "vendu") && IsNum(t.value.1) && IsNum(t.value.2)
  {
    var r1 :- Ws1(r);
    var r2 :- Lit(r1, "a");
    var r3 :- Ws1(r2);
    var act :- ActionWord(r3);
    var r4 :- Ws1(act.1);
    var m :- Num(r4);
    var r5 :- Lit(TrimLeft(m.1), "m");
    var r6 :- Ws1(r5);
    var r7 :- Lit(r6, "au");
    var r8 :- Ws1(r7);
    var r9 :- Lit(r8, "taux");
    var r10 :- Ws1(r9);
    var r11 :- Lit(r10, "de");
    var r12 :- Ws1(r11);
    var rate :- Num(r12);
    var _ :- Lit(TrimLeft(rate.1), "€/m");
    Some((act.0, m.0, rate.0))
  }

  /** `\[([^\]]+)\]` followed by the tail: the admin group runs to the first
      `]` and may not be empty. */
  function Bracketed(u: string): (r: Option<HumanMatch>)
    ensures r.Some? ==> ValidHuman(r.value)
  {
    if u == [] || u[0] != '[' then None
    else
      var v := u[1..];
      var j := IndexOf(v, ']');
      if j == 0 || j == |v| then None
      else
        var t :- HumanTail(v[j + 1..]);
        Some(HumanMatch(v[..j], t.0, t.1, t.2))
  }

  /** A character of the class `[^\w\s]`. */
  predicate IsSymbol(c: char) { !IsWordChar(c) && !IsSpace(c) }

  /** `RE_HUMAN.search(content)`: anchored at the start of the content, with
      the optional symbol tried first and then skipped. */
  function MatchHuman(content: string): (r: Option<HumanMatch>)
    ensures r.Some? ==> ValidHuman(r.value)
  {
    var t := TrimLeft(content);
    if t != [] && IsSymbol(t[0]) && Bracketed(TrimLeft(t[1..])).Some? then Bracketed(TrimLeft(t[1..]))
    else Bracketed(t)
  }

  // ---------------------------------------------------------------------------
  // Entries
  // ---------------------------------------------------------------------------

  /** `_parse_decimal` on a matched number group; it cannot fail there. */
  function NumValue(t: string): real
    requires IsNum(t)
  {
    NumParses(t);
    Value(ParseDecimal(t).value)
  }

  /** The admin column of a tagged entry: the stripped name of the human
      sentence when it matches and is not blank, else `ID:<admin_id>`. */
  function TagName(hum: Option<HumanMatch>, id: nat): string {
    if hum.Some? && Strip(hum.value.admin) != "" then Strip(hum.value.admin)
    else "ID:" + NatToDigits(id)
  }

  function TaggedEntry(tag: TagMatch, hum: Option<HumanMatch>): Line
    requires ValidTag(tag)
  {
    var id := DigitsValue(tag.adminId);
    MakeLine(tag.kind, TagName(hum, id), Some(id), NumValue(tag.m), NumValue(tag.rate))
  }

  function HumanEntry(hum: HumanMatch): Line
    requires ValidHuman(hum)
  {
    var kind := if hum.action == "acheté" then Achat else Vente;
    MakeLine(kind, Strip(hum.admin), None, NumValue(hum.m), NumValue(hum.rate))
  }

  /** The entry one message contributes (one iteration of the reading loop). */
  function MessageEntry(msg: Message): Option<Line> {
    if !msg.authorIsBot then None
    else
      var tag := FirstTag(SplitLines(msg.content));
      if tag.Some? then Some(TaggedEntry(tag.value, MatchHuman(msg.content)))
      else
        var hum := MatchHuman(msg.content);
        if hum.Some? then Some(HumanEntry(hum.value)) else None
  }

  function EntryList(msg: Message): seq<Line> {
    var e := MessageEntry(msg);
    if e.Some? then [e.value] else []
  }

  /** The entries of a channel history, oldest message first. */
  function Entries(history: seq<Message>): seq<Line> {
    if history == [] then []
    else Entries(history[..|history| - 1]) + EntryList(history[|history| - 1])
  }

  /** `_read_journal_lines` over the channel history, oldest first. */
  method ReadJournal(history: seq<Message>) returns (lines: seq<Line>)
    ensures lines == Entries(history)
  {
    lines := [];
    var i := 0;
    while i < |history|
      invariant 0 <= i <= |history|
      invariant lines == Entries(history[..i])
    {
      var msg := history[i];
      assert history[..i + 1][..i] == history[..i];
      if msg.authorIsBot {
        var lns := SplitLines(msg.content);
        var tag: Option<TagMatch> := None;
        var j := 0;
        while j < |lns| && tag.None?
          invariant 0 <= j <= |lns|
          invariant tag.None? ==> FirstTag(lns[j..]) == FirstTag(lns)
          invariant tag.Some? ==> tag == FirstTag(lns)
        {
          assert lns[j..][1..] == lns[j + 1..];
          var m := FindTag(lns[j]);
          if m.Some? {
            tag := m;
          }
          j := j + 1;
        }
        if j == |lns| && tag.None? {
          assert lns[j..] == [];
        }
        if tag.Some? {
          var hum := MatchHuman(msg.content);
          lines := lines + [TaggedEntry(tag.value, hum)];
        } else {
          var hum := MatchHuman(msg.content);
          if hum.Some? {
            lines := lines + [HumanEntry(hum.value)];
          }
        }
      }
      i := i + 1;
    }
    assert history[..|history|] == history;
  }

  // ---------------------------------------------------------------------------
  // The number matcher agrees with the grammar
  // ---------------------------------------------------------------------------

  /** What the greedy matcher takes is a number. */
  lemma {:induction false} NumLenSound(s: string)
    requires NumLen(s).Some?
    ensures IsNum(s[..NumLen(s).value])
  {
    var g := SignLen(s);
    var n := NumLen(s).value;
    var t := s[..n];
    assert SignLen(t) == g;
    UnsignedLenSound(s[g..]);
    assert t[g..] == s[g..][..n - g];
  }

  lemma {:induction false} UnsignedLenSound(u: string)
    requires UnsignedLen(u).Some?
    ensures IsUnsignedNum(u[..UnsignedLen(u).value])
  {
    var k := LeadingDigits(u);
    var n := UnsignedLen(u).value;
    LeadingDigitsSpec(u);
    var w := u[..n];
    if k + 1 < |u| && IsSep(u[k]) && IsDigit(u[k + 1]) {
      var f := LeadingDigits(u[k + 1..]);
      LeadingDigitsSpec(u[k + 1..]);
      assert w[..k] == u[..k];
      assert w[k + 1..] == u[k + 1..][..f];
      assert FractionAt(w, k);
    } else {
      assert w == u[..k];
    }
  }

  /** The regex can split `t + r` after the number `t` only when `r` does not
      go on with a digit or a separator; the greedy matcher then takes exactly
      `t`. With `NumLenSound` this makes the greedy reading the regex's. */
  lemma {:induction false} NumLenExact(t: string, r: string)
    requires IsNum(t) && EndsNum(r)
    ensures NumLen(t + r) == Some(|t|)
  {
    var s := t + r;
    var g := SignLen(t);
    assert SignLen(s) == g;
    var w := t[g..];
    assert s[g..] == w + r;
    UnsignedLenExact(w, r);
  }

  lemma {:induction false} UnsignedLenExact(w: string, r: string)
    requires IsUnsignedNum(w) && EndsNum(r)
    ensures UnsignedLen(w + r) == Some(|w|)
  {
    if w != [] && AllDigits(w) {
      LeadingDigitsConcat(w, r);
    } else {
      var k :| FractionAt(w, k);
      FractionLenExact(w, k, r);
    }
  }

  lemma {:induction false} FractionLenExact(w: string, k: int, r: string)
    requires FractionAt(w, k) && EndsNum(r)
    ensures UnsignedLen(w + r) == Some(|w|)
  {
    var u := w + r;
    var ip, fp := w[..k], w[k + 1..];
    assert u == ip + ([w[k]] + (fp + r));
    LeadingDigitsConcat(ip, [w[k]] + (fp + r));
    assert u[k] == w[k] && u[k + 1] == w[k + 1];
    assert u[k + 1..] == fp + r;
    LeadingDigitsConcat(fp, r);
  }

  /** Python's `float` accepts every number the patterns match, after
      `_parse_decimal` has turned the comma into a dot. */
  lemma {:induction false} NumParses(t: string)
    requires IsNum(t)
    ensures ParseDecimal(t).Some?
  {
    var g := SignLen(t);
    var sg, w := t[..g], t[g..];
    assert t == sg + w;
    assert sg == "" || sg == "-" || sg == "+";
    if w != [] && AllDigits(w) {
      PlainDigits(sg, w);
      NormaliseClean(t);
      assert t == sg + w + "";
      ParseFloatPositional(sg, w, "", false);
    } else {
      var k :| FractionAt(w, k);
      FractionParses(sg, w, k);
    }
  }

  lemma {:induction false} FractionParses(sg: string, w: string, k: int)
    requires sg == "" || sg == "-" || sg == "+"
    requires FractionAt(w, k)
    ensures ParseDecimal(sg + w).Some?
  {
    var ip, fp := w[..k], w[k + 1..];
    var a := sg + ip;
    var t' := sg + ip + ("." + fp);
    assert w == ip + [w[k]] + fp;
    assert sg + w == a + [w[k]] + fp;
    assert t' == a + ['.'] + fp;
    if w[k] == ',' {
      ParseDecimalCommaIsDot(a, fp);
    }
    assert ParseDecimal(sg + w) == ParseDecimal(t');
    DotLiteralParses(sg, ip, fp);
  }

  lemma {:induction false} DotLiteralParses(sg: string, ip: string, fp: string)
    requires sg == "" || sg == "-" || sg == "+"
    requires ip != [] && AllDigits(ip) && AllDigits(fp)
    ensures ParseDecimal(sg + ip + ("." + fp)).Some?
  {
    var t := sg + ip + ("." + fp);
    PlainNumber(sg, ip, fp);
    NormaliseClean(t);
    ParseFloatPositional(sg, ip, fp, true);
    assert sg + ip + (if true then "." + fp else "") == t;
  }

  // ---------------------------------------------------------------------------
  // Properties of the reader
  // ---------------------------------------------------------------------------

  /** The bot-authored messages of a history, in order. */
  function BotMessages(history: seq<Message>): (r: seq<Message>)
    ensures forall k :: 0 <= k < |r| ==> r[k].authorIsBot
  {
    if history == [] then []
    else
      var last := history[|history| - 1];
      BotMessages(history[..|history| - 1]) + (if last.authorIsBot then [last] else [])
  }

  /** Messages of accounts that are not bots contribute nothing. */
  lemma {:induction false} EntriesOnlyFromBots(history: seq<Message>)
    ensures Entries(history) == Entries(BotMessages(history))
  {
    if history != [] {
      var init, last := history[..|history| - 1], history[|history| - 1];
      EntriesOnlyFromBots(init);
      var b := BotMessages(init);
      if last.authorIsBot {
        assert (b + [last])[..|b|] == b;
      } else {
        assert b + [] == b;
      }
    }
  }

  /** Reading a longer history reads the older part first. */
  lemma {:induction false} EntriesAppend(a: seq<Message>, b: seq<Message>)
    ensures Entries(a + b) == Entries(a) + Entries(b)
    decreases |b|
  {
    if b == [] {
      assert a + b == a;
    } else {
      var b', x := b[..|b| - 1], b[|b| - 1];
      assert b == b' + [x];
      assert a + b == (a + b') + [x];
      EntriesSnoc(a + b, a + b', x);
      EntriesSnoc(b, b', x);
      EntriesAppend(a, b');
      SeqAssoc(Entries(a), Entries(b'), EntryList(x));
    }
  }

  lemma {:induction false} SeqAssoc(p: seq<Line>, q: seq<Line>, r: seq<Line>)
    ensures (p + q) + r == p + (q + r)
  {
  }

  lemma {:induction false} EntriesSnoc(h: seq<Message>, init: seq<Message>, last: Message)
    requires h == init + [last]
    ensures Entries(h) == Entries(init) + EntryList(last)
  {
    assert h[..|h| - 1] == init;
  }

  /** Each entry comes from one message, so there are never more entries than
      messages by bots. */
  lemma {:induction false} EntriesBound(history: seq<Message>)
    ensures |Entries(history)| <= |BotMessages(history)|
  {
    if history != [] {
      EntriesBound(history[..|history| - 1]);
    }
  }

  /** `RE_TAG.search` reports the leftmost position at which a tag starts,
      and nothing when no position has one. */
  lemma {:induction false} FindTagLeftmost(ln: string)
    ensures FindTag(ln).None? <==> forall i :: 0 <= i <= |ln| ==> MatchTag(ln[i..]).None?
    ensures FindTag(ln).Some? ==>
              exists i :: 0 <= i <= |ln| && MatchTag(ln[i..]) == FindTag(ln)
                          && forall j :: 0 <= j < i ==> MatchTag(ln[j..]).None?
  {
    if MatchTag(ln).Some? {
      assert ln[0..] == ln;
    } else if ln == [] {
      assert forall i :: 0 <= i <= |ln| ==> ln[i..] == ln;
    } else {
      FindTagLeftmost(ln[1..]);
      assert forall i :: 1 <= i <= |ln| ==> ln[i..] == ln[1..][i - 1..];
      assert ln[0..] == ln;
      if FindTag(ln).Some? {
        var i :| 0 <= i <= |ln[1..]| && MatchTag(ln[1..][i..]) == FindTag(ln[1..])
                 && forall j :: 0 <= j < i ==> MatchTag(ln[1..][j..]).None?;
        assert MatchTag(ln[i + 1..]) == FindTag(ln);
        assert forall j :: 0 <= j < i + 1 ==> MatchTag(ln[j..]).None? by {
          forall j | 0 <= j < i + 1 ensures MatchTag(ln[j..]).None? {
            if j > 0 { assert ln[j..] == ln[1..][j - 1..]; }
          }
        }
      } else {
        forall i | 0 <= i <= |ln| ensures MatchTag(ln[i..]).None? {
          if i > 0 { assert ln[i..] == ln[1..][i - 1..]; }
        }
      }
    }
  }

  /** The tag of a message is the one on the first line that has a tag. */
  lemma {:induction false} FirstTagFirstLine(lines: seq<string>)
    ensures FirstTag(lines).None? <==> forall k :: 0 <= k < |lines| ==> FindTag(lines[k]).None?
    ensures FirstTag(lines).Some? ==>
              exists k :: 0 <= k < |lines| && FindTag(lines[k]) == FirstTag(lines)
                          && forall j :: 0 <= j < k ==> FindTag(lines[j]).None?
  {
    FirstTagNone(lines);
    if FirstTag(lines).Some? {
      var k := FirstTagLine(lines);
    }
  }

  lemma {:induction false} FirstTagNone(lines: seq<string>)
    ensures FirstTag(lines).None? <==> forall k :: 0 <= k < |lines| ==> FindTag(lines[k]).None?
  {
    if lines != [] && FindTag(lines[0]).None? {
      FirstTagNone(lines[1..]);
      assert forall k :: 1 <= k < |lines| ==> lines[k] == lines[1..][k - 1];
    }
  }

  /** The line whose tag `FirstTag` returns: every line before it has none. */
  lemma {:induction false} FirstTagLine(lines: seq<string>) returns (k: nat)
    requires FirstTag(lines).Some?
    ensures k < |lines| && FindTag(lines[k]) == FirstTag(lines)
    ensures forall j :: 0 <= j < k ==> FindTag(lines[j]).None?
  {
    var found := TagsOf(lines);
    FirstTagOfTags(lines);
    k := FirstSomeAt(found);
    TagsOfAt(lines, k);
    forall j | 0 <= j < k ensures FindTag(lines[j]).None? {
      TagsOfAt(lines, j);
    }
  }

  /** The result of `RE_TAG.search` on each line. */
  function TagsOf(lines: seq<string>): (found: seq<Option<TagMatch>>)
    ensures |found| == |lines|
  {
    if lines == [] then [] else [FindTag(lines[0])] + TagsOf(lines[1..])
  }

  lemma {:induction false} TagsOfAt(lines: seq<string>, k: nat)
    requires k < |lines|
    ensures TagsOf(lines)[k] == FindTag(lines[k])
  {
    if k > 0 {
      TagsOfAt(lines[1..], k - 1);
      assert lines[1..][k - 1] == lines[k];
    }
  }

  /** The first present value of a sequence of options. */
  function FirstSome(found: seq<Option<TagMatch>>): Option<TagMatch> {
    if found == [] then None
    else if found[0].Some? then found[0]
    else FirstSome(found[1..])
  }

  lemma {:induction false} FirstTagOfTags(lines: seq<string>)
    ensures FirstTag(lines) == FirstSome(TagsOf(lines))
  {
    if lines != [] {
      FirstTagOfTags(lines[1..]);
      assert TagsOf(lines)[1..] == TagsOf(lines[1..]);
    }
  }

  lemma {:induction false} FirstSomeAt(found: seq<Option<TagMatch>>) returns (k: nat)
    requires FirstSome(found).Some?
    ensures k < |found| && found[k] == FirstSome(found)
    ensures forall j :: 0 <= j < k ==> found[j].None?
  {
    if found[0].Some? {
      k := 0;
    } else {
      var k' := FirstSomeAt(found[1..]);
      k := k' + 1;
      assert found[k] == found[1..][k'];
      forall j | 0 <= j < k ensures found[j].None? {
        if j > 0 { assert found[j] == found[1..][j - 1]; }
      }
    }
  }

  /** The entry of a message, case by case: nothing from accounts that are not
      bots; from the tag when a line carries one, the human sentence giving
      only the name; otherwise from the human sentence, without an admin id. */
  lemma {:induction false} MessageEntryCases(msg: Message)
    ensures !msg.authorIsBot ==> MessageEntry(msg).None?
    ensures msg.authorIsBot ==>
              (MessageEntry(msg).Some? <==>
                 FirstTag(SplitLines(msg.content)).Some? || MatchHuman(msg.content).Some?)
    ensures msg.authorIsBot && FirstTag(SplitLines(msg.content)).Some? ==>
              var t := FirstTag(SplitLines(msg.content)).value;
              var l := MessageEntry(msg).value;
              var id := DigitsValue(t.adminId);
              l.kind == t.kind && l.adminId == Some(id)
              && l.mMillions == NumValue(t.m) && l.rate == NumValue(t.rate)
              && (MatchHuman(msg.content).Some? && Strip(MatchHuman(msg.content).value.admin) != "" ==>
                    l.admin == Strip(MatchHuman(msg.content).value.admin))
              && (MatchHuman(msg.content).None? || Strip(MatchHuman(msg.content).value.admin) == "" ==>
                    l.admin == "ID:" + NatToDigits(id))
    ensures msg.authorIsBot && FirstTag(SplitLines(msg.content)).None? && MatchHuman(msg.content).Some? ==>
              var h := MatchHuman(msg.content).value;
              var l := MessageEntry(msg).value;
              l.adminId.None? && l.admin == Strip(h.admin)
              && (l.kind == Achat <==> h.action == "acheté")
              && l.mMillions == NumValue(h.m) && l.rate == NumValue(h.rate)
  {
  }

  /** A tag on a later line wins over whatever the first line says, even a
      human sentence of the other kind or with other amounts. */
  lemma {:induction false} TagBeatsHuman(h: string, rest: string)
    requires NoLineBreak(h) && FindTag(h).None?
    requires FirstTag(SplitLines(rest)).Some?
    ensures var t := FirstTag(SplitLines(rest)).value;
            var e := MessageEntry(Message(true, h + "\n" + rest));
            e.Some? && e.value.kind == t.kind && e.value.adminId == Some(DigitsValue(t.adminId))
            && e.value.mMillions == NumValue(t.m) && e.value.rate == NumValue(t.rate)
  {
    SplitLinesOfLine(h, rest);
    var ls := [h] + SplitLines(rest);
    assert ls[0] == h && ls[1..] == SplitLines(rest);
  }

  // ---------------------------------------------------------------------------
  // What `/data` writes, and that the reader gets it back
  // ---------------------------------------------------------------------------

  function KindText(k: Kind): string { if k == Achat then "achat" else "vente" }
  function Verb(k: Kind): string { if k == Achat then "acheté" else "vendu" }
  function Emoji(k: Kind): char { if k == Achat then '\U{1F4B0}' else '\U{2B50}' }

  /** The human sentence of `/data`: emoji, `[display name]`, the verb, the
      amounts in display format. */
  function HumanText(k: Kind, display: string, m: real, rate: real): string {
    [Emoji(k)] + " [" + HumanRest(k, display, m, rate)
  }

  /** The machine tag of `/data`. The source writes Python's `repr` of the
      two floats here; `TagNumber` is the positional text the tag pattern
      accepts (see `ReprTagUnreadable`). */
  function TagText(k: Kind, m: Dec, rate: Dec, userId: nat): string {
    "[[DATA|" + (KindText(k) + ("|" + (TagNumber(m) + ("|" + (TagNumber(rate)
      + ("|" + (NatToDigits(userId) + "]]")))))))
  }

  /** The tag as the source writes it, with `repr` of the two numbers. */
  function ReprTagText(k: Kind, m: Dec, rate: Dec, userId: nat): string {
    "[[DATA|" + (KindText(k) + ("|" + (ReprFloat(m) + ("|" + (ReprFloat(rate)
      + ("|" + (NatToDigits(userId) + "]]")))))))
  }

  /** The whole message `/data` posts. */
  function PostText(k: Kind, display: string, m: Dec, rate: Dec, userId: nat): string {
    HumanText(k, display, Value(m), Value(rate)) + "\n" + TagText(k, m, rate, userId)
  }

  /** The tag `/data` writes is matched back with the same groups. */
  lemma {:induction false} TagRoundTrip(k: Kind, m: Dec, rate: Dec, userId: nat)
    requires userId >= 10000
    ensures MatchTag(TagText(k, m, rate, userId))
            == Some(TagMatch(k, TagNumber(m), TagNumber(rate), NatToDigits(userId)))
    ensures FindTag(TagText(k, m, rate, userId)) == MatchTag(TagText(k, m, rate, userId))
  {
    TagNumberIsNum(m);
    TagNumberIsNum(rate);
    AdminIdFieldOf(userId);
    MatchTagOf(k, TagNumber(m), TagNumber(rate), NatToDigits(userId) + "]]", NatToDigits(userId));
  }

  /** A tag with well-formed fields is matched with exactly those fields. */
  lemma {:induction false} MatchTagOf(k: Kind, mt: string, rt: string, tail: string, ids: string)
    requires IsNum(mt) && IsNum(rt) && AdminIdField(tail) == Some(ids)
    ensures MatchTag("[[DATA|" + (KindText(k) + ("|" + (mt + ("|" + (rt + ("|" + tail)))))))
            == Some(TagMatch(k, mt, rt, ids))
  {
    var s4 := rt + ("|" + tail);
    var s3 := mt + ("|" + s4);
    var s2 := "|" + s3;
    var s1 := KindText(k) + s2;
    TagPrefixLower();
    LitConcat("[[DATA|", s1, "[[data|");
    KindWordOf(k, s2);
    LitConcat("|", s3, "|");
    NumFieldConcat(mt, s4);
    NumFieldConcat(rt, tail);
    MatchTagSteps("[[DATA|" + s1, s1, k, s2, s3, mt, s4, rt, tail, ids);
  }

  lemma {:induction false} TagPrefixLower()
    ensures LowerStr("[[DATA|") == "[[data|"
  {
  }

  /** The groups of the tag pattern, field by field, make the match. */
  lemma {:induction false} MatchTagSteps(s: string, s1: string, k: Kind, s2: string, s3: string,
                                         mt: string, s4: string, rt: string, tail: string, ids: string)
    requires Lit(s, "[[data|") == Some(s1)
    requires KindWord(s1) == Some((k, s2))
    requires Lit(s2, "|") == Some(s3)
    requires NumField(s3) == Some((mt, s4))
    requires NumField(s4) == Some((rt, tail))
    requires AdminIdField(tail) == Some(ids)
    ensures MatchTag(s) == Some(TagMatch(k, mt, rt, ids))
  {
  }

  /** A purchase of 0.00001 M: `repr` writes `1e-05`, which the number
      group of the tag pattern cannot match, so the tag the source posts is
      not found again, while the positional tag is. */
  lemma {:induction false} ReprTagUnreadable()
    ensures ReprFloat(Dec(1, 5)) == "1e-05"
    ensures FindTag(ReprTagText(Achat, Dec(1, 5), Dec(38, 1), 123456789012345678)).None?
    ensures FindTag(TagText(Achat, Dec(1, 5), Dec(38, 1), 123456789012345678)).Some?
  {
    ReprOneE5();
    ReprThreePointEight();
    var ids := NatToDigits(123456789012345678);
    assert ReprTagText(Achat, Dec(1, 5), Dec(38, 1), 123456789012345678)
      == "[[DATA|" + ("achat" + ("|" + ("1e-05" + ("|" + ("3.8" + ("|" + (ids + "]]")))))));
    ReprTagNotFound(ids);
    TagRoundTrip(Achat, Dec(1, 5), Dec(38, 1), 123456789012345678);
  }

  lemma {:induction false} ReprOneE5()
    ensures ReprFloat(Dec(1, 5)) == "1e-05"
  {
    var m := Dec(1, 5);
    assert Normalize(m) == m;
    assert NatToDigits(1) == "1";
    assert DropTrailingZeros("1") == "1";
    assert ExponentDigits(5) == "05";
  }

  lemma {:induction false} ReprTagNotFound(ids: string)
    requires AllDigits(ids)
    ensures FindTag("[[DATA|" + ("achat" + ("|" + ("1e-05" + ("|" + ("3.8" + ("|" + (ids + "]]")))))))).None?
  {
    var y := "|" + ("3.8" + ("|" + (ids + "]]")));
    var rest := "e-05" + y;
    var x := "achat" + ("|" + ("1e-05" + y));
    var t := "DATA|" + x;
    SplitOneE5(y);
    ReprTagNoMatch(rest);
    SplitBrackets(x);
    TailTame(ids);
    NoTagPastBrackets(t);
  }

  lemma {:induction false} SplitOneE5(y: string)
    ensures "1e-05" + y == "1" + ("e-05" + y)
  {
    assert ("1e-05" + y)[1..] == "e-05" + y;
  }

  lemma {:induction false} SplitBrackets(x: string)
    ensures "[[DATA|" + x == "[[" + ("DATA|" + x)
  {
    assert ("[[DATA|" + x)[2..] == "DATA|" + x;
  }

  /** After a `[[` that starts no tag, text without `[` holds none either. */
  lemma {:induction false} NoTagPastBrackets(t: string)
    requires MatchTag("[[" + t).None? && TameText(t)
    ensures FindTag("[[" + t).None?
  {
    var s := "[[" + t;
    FindTagStep(s);
    assert s[1..] == "[" + t;
    assert t != [] ==> s[1..][1] == t[0] && Tame(t[0]);
    NoTagHere(s[1..]);
    FindTagStep(s[1..]);
    assert s[1..][1..] == t;
    TameNoTag(t);
  }

  /** No tag starts at the start: the first number group stops at `e`. */
  lemma {:induction false} ReprTagNoMatch(rest: string)
    requires rest != [] && rest[0] == 'e'
    ensures MatchTag("[[DATA|" + ("achat" + ("|" + ("1" + rest)))).None?
  {
    var s3 := "1" + rest;
    var s2 := "|" + s3;
    var x := "achat" + s2;
    LitConcat("[[DATA|", x, "[[data|");
    KindWordOf(Achat, s2);
    LitConcat("|", s3, "|");
    UnreadableNumber(rest);
    MatchTagStops("[[DATA|" + x, x, s2, s3);
  }

  /** A tag whose first number field is unreadable does not match. */
  lemma {:induction false} MatchTagStops(s: string, x: string, s2: string, s3: string)
    requires Lit(s, "[[data|") == Some(x)
    requires KindWord(x) == Some((Achat, s2))
    requires Lit(s2, "|") == Some(s3)
    requires NumField(s3).None?
    ensures MatchTag(s).None?
  {
  }

  lemma {:induction false} TailTame(ids: string)
    requires AllDigits(ids)
    ensures TameText("DATA|" + ("achat" + ("|" + ("1e-05" + ("|" + ("3.8" + ("|" + (ids + "]]"))))))))
  {
    var s3 := "3.8" + ("|" + (ids + "]]"));
    DigitsTame(ids);
    TameConcat(ids, "]]");
    TameConcat("|", ids + "]]");
    TameConcat("3.8", "|" + (ids + "]]"));
    TameConcat("|", s3);
    TameConcat("1e-05", "|" + s3);
    TameConcat("|", "1e-05" + ("|" + s3));
    TameConcat("achat", "|" + ("1e-05" + ("|" + s3)));
    TameConcat("DATA|", "achat" + ("|" + ("1e-05" + ("|" + s3))));
  }

  /** A single digit followed by `e`: the number group takes the digit
      alone, and no `|` follows it. */
  lemma {:induction false} UnreadableNumber(rest: string)
    requires rest != [] && rest[0] == 'e'
    ensures NumField("1" + rest).None?
  {
    var s := "1" + rest;
    assert SignLen(s) == 0;
    assert LeadingDigits(s[1..]) == 0;
    assert LeadingDigits(s) == 1;
    assert UnsignedLen(s) == Some(1);
    assert Num(s) == Some(("1", rest));
    assert Lit(rest, "|").None? by { assert Lower(rest[0]) != '|'; }
  }

  lemma {:induction false} ReprThreePointEight()
    ensures ReprFloat(Dec(38, 1)) == "3.8"
  {
    var n := Dec(38, 1);
    assert Normalize(n) == n;
    assert NatToDigits(38) == "38";
    assert PaddedDigits(n) == "38";
    assert IntPart(n) == "3" && FracPart(n) == "8";
  }

  lemma {:induction false} DigitsTame(ds: string)
    requires AllDigits(ds)
    ensures TameText(ds)
  {
    forall i | 0 <= i < |ds| ensures Tame(ds[i]) { assert IsDigit(ds[i]); }
  }

  lemma {:induction false} KindWordOf(k: Kind, rest: string)
    ensures KindWord(KindText(k) + rest) == Some((k, rest))
  {
    LitConcat(KindText(k), rest, KindText(k));
    if k == Vente { assert Lower((KindText(k) + rest)[0]) == 'v'; }
  }

  lemma {:induction false} AdminIdFieldOf(userId: nat)
    requires userId >= 10000
    ensures AdminIdField(NatToDigits(userId) + "]]") == Some(NatToDigits(userId))
  {
    var ids := NatToDigits(userId);
    var s := ids + "]]";
    LeadingDigitsConcat(ids, "]]");
    assert s[..|ids|] == ids && s[|ids|..] == "]]";
    LitConcat("]]", "", "]]");
    assert "]]" + "" == "]]";
    assert Pow10(4) == 10000;
    NatToDigitsLength(userId, 4);
  }

  /** A case-insensitive literal followed by anything. */
  lemma {:induction false} LitConcat(x: string, rest: string, p: string)
    requires LowerStr(x) == p
    ensures Lit(x + rest, p) == Some(rest)
  {
    assert (x + rest)[|p|..] == rest;
    assert forall i :: 0 <= i < |p| ==> (x + rest)[i] == x[i];
  }

  lemma {:induction false} NumFieldConcat(t: string, rest: string)
    requires IsNum(t)
    ensures NumField(t + ("|" + rest)) == Some((t, rest))
  {
    var r := "|" + rest;
    NumLenExact(t, r);
    var s := t + r;
    assert s[..|t|] == t && s[|t|..] == r;
    LitConcat("|", rest, "|");
  }

  lemma {:induction false} TagNumberIsNum(d: Dec)
    ensures IsNum(TagNumber(d))
  {
    var n := Normalize(d);
    PointNumberIsNum(SignText(n.mant < 0), IntPart(n), FracPart(n));
  }

  /** Optional minus, digits, `.`, digits: a number of the pattern. */
  lemma {:induction false} PointNumberIsNum(sg: string, ip: string, fp: string)
    requires sg == "" || sg == "-"
    requires ip != [] && AllDigits(ip) && fp != [] && AllDigits(fp)
    ensures IsNum(sg + ip + "." + fp)
  {
    var t := sg + ip + "." + fp;
    var w := ip + "." + fp;
    assert t == sg + w;
    assert SignLen(t) == |sg|;
    assert t[|sg|..] == w;
    assert w[..|ip|] == ip && w[|ip|] == '.' && w[|ip| + 1..] == fp;
    assert FractionAt(w, |ip|);
  }

  /** The entry of the message `/data` posts: kind, amounts and the author's
      id come back from the machine tag, the name from the human sentence when
      it matches, unless the human sentence already carries a tag of its own
      (which a display name can smuggle in, see `SpoofedName`). */
  lemma {:induction false} PostEntry(k: Kind, display: string, m: Dec, rate: Dec, userId: nat)
    requires userId >= 10000
    ensures var post := PostText(k, display, m, rate, userId);
            var first := FirstTag(SplitLines(HumanText(k, display, Value(m), Value(rate))));
            && (first.None? ==>
                  MessageEntry(Message(true, post))
                  == Some(MakeLine(k, TagName(MatchHuman(post), userId), Some(userId), Value(m), Value(rate))))
            && (first.Some? ==>
                  MessageEntry(Message(true, post)) == Some(TaggedEntry(first.value, MatchHuman(post))))
  {
    var post := PostText(k, display, m, rate, userId);
    var first := FirstTag(SplitLines(HumanText(k, display, Value(m), Value(rate))));
    var tm := TagMatch(k, TagNumber(m), TagNumber(rate), NatToDigits(userId));
    PostTag(k, display, m, rate, userId);
    if first.None? {
      assert MessageEntry(Message(true, post)) == Some(TaggedEntry(tm, MatchHuman(post)));
      NatToDigitsValue(userId);
      TagNumberRoundTrip(m);
      TagNumberRoundTrip(rate);
    }
  }

  /** The tag of the posted message is the one `/data` wrote, unless a line
      of the human sentence already has one. */
  lemma {:induction false} PostTag(k: Kind, display: string, m: Dec, rate: Dec, userId: nat)
    requires userId >= 10000
    ensures var first := FirstTag(SplitLines(HumanText(k, display, Value(m), Value(rate))));
            FirstTag(SplitLines(PostText(k, display, m, rate, userId)))
            == if first.Some? then first else Some(TagMatch(k, TagNumber(m), TagNumber(rate), NatToDigits(userId)))
  {
    var h := HumanText(k, display, Value(m), Value(rate));
    var t := TagText(k, m, rate, userId);
    HumanTextEnd(k, display, Value(m), Value(rate));
    TagTextUnbroken(k, m, rate, userId);
    SplitLinesAppend(h, t);
    FirstTagSnoc(SplitLines(h), t);
    TagRoundTrip(k, m, rate, userId);
  }

  /** A line added after the others only matters when none of them has a tag. */
  lemma {:induction false} FirstTagSnoc(lines: seq<string>, t: string)
    ensures FirstTag(lines + [t]) == if FirstTag(lines).Some? then FirstTag(lines) else FindTag(t)
  {
    var ls := lines + [t];
    if lines == [] {
      assert ls == [t] && ls[1..] == [];
    } else {
      assert ls[0] == lines[0] && ls[1..] == lines[1..] + [t];
      FirstTagSnoc(lines[1..], t);
    }
  }

  /** The human sentence ends with the euro sign, which is no line break. */
  lemma {:induction false} HumanTextEnd(k: Kind, display: string, m: real, rate: real)
    ensures var h := HumanText(k, display, m, rate);
            h != [] && h[|h| - 1] == '\U{20AC}' && !IsLineBreak(h[|h| - 1])
  {
    var w := HumanWords(k, m, rate);
    var c := FmtAmount(CalcEuros(m, rate) as real / 100.0) + " \U{20AC}";
    assert c[|c| - 1] == '\U{20AC}';
    assert w[|w| - 1] == c[|c| - 1];
    var h := HumanText(k, display, m, rate);
    assert h == ([Emoji(k)] + " [") + (display + w);
    assert h[|h| - 1] == w[|w| - 1];
  }

  /** A spoofed display name: a name shaped like the inside of a tag makes
      the human sentence carry the tag `[[DATA|vente|1|1|12345]]`, and the
      entry is then read from it, whatever `/data` was given. */
  lemma {:induction false} SpoofedName(k: Kind, m: Dec, rate: Dec, userId: nat)
    ensures var post := PostText(k, "[DATA|vente|1|1|12345]", m, rate, userId);
            && FirstTag(SplitLines(post)) == Some(TagMatch(Vente, "1", "1", "12345"))
            && MessageEntry(Message(true, post)).Some?
            && MessageEntry(Message(true, post)).value.kind == Vente
            && MessageEntry(Message(true, post)).value.adminId == Some(12345)
  {
    var d := "[DATA|vente|1|1|12345]";
    var post := PostText(k, d, m, rate, userId);
    var w := HumanWords(k, Value(m), Value(rate));
    var t := TagText(k, m, rate, userId);
    HumanWordsOfTame(k, Value(m), Value(rate));
    assert post == ([Emoji(k)] + " [") + (d + w) + "\n" + t;
    SpoofLine(Emoji(k), w, t);
    var tm := TagMatch(Vente, "1", "1", "12345");
    assert FirstTag(SplitLines(post)) == Some(tm);
    SpoofId();
    assert MessageEntry(Message(true, post)) == Some(TaggedEntry(tm, MatchHuman(post)));
  }

  lemma {:induction false} SpoofId()
    ensures AllDigits("12345") && DigitsValue("12345") == 12345
  {
    assert "12345"[..4] == "1234" && "1234"[..3] == "123" && "123"[..2] == "12" && "12"[..1] == "1";
    assert "1"[..0] == [];
    assert DigitsValue("1") == 1;
    assert DigitsValue("12") == 12;
    assert DigitsValue("123") == 123;
    assert DigitsValue("1234") == 1234;
  }

  /** The first line of the spoofed sentence carries the tag of the name. */
  lemma {:induction false} SpoofLine(e: char, w: string, t: string)
    requires e != '[' && !IsLineBreak(e) && w != [] && w[0] == ']'
    ensures var lines := SplitLines(([e] + " [") + ("[DATA|vente|1|1|12345]" + w) + "\n" + t);
            lines != [] && FindTag(lines[0]) == Some(TagMatch(Vente, "1", "1", "12345"))
  {
    var d := "[DATA|vente|1|1|12345]";
    var q := "[[DATA|vente|1|1|12345]]";
    var p := [e] + " " + q;
    var post := ([e] + " [") + (d + w) + "\n" + t;
    SpoofShape(e, w, t);
    SpoofUnbroken(e);
    SplitLinesFirst(post, p);
    var ln := SplitLines(post)[0];
    var z := ln[|p|..];
    assert ln == ln[..|p|] + z;
    TagAt(ln, e, z);
  }

  lemma {:induction false} SpoofUnbroken(e: char)
    requires !IsLineBreak(e)
    ensures NoLineBreak([e] + " " + "[[DATA|vente|1|1|12345]]")
  {
    var q := "[[DATA|vente|1|1|12345]]";
    assert NoLineBreak(q) by {
      forall i | 0 <= i < |q| ensures !IsLineBreak(q[i]) {
        assert q[i] in "[]DATA|vente12345";
      }
    }
    UnbrokenConcat([e] + " ", q);
  }

  lemma {:induction false} SpoofShape(e: char, w: string, t: string)
    requires w != [] && w[0] == ']'
    ensures var p := [e] + " " + "[[DATA|vente|1|1|12345]]";
            var post := ([e] + " [") + ("[DATA|vente|1|1|12345]" + w) + "\n" + t;
            |p| <= |post| && post[..|p|] == p
  {
    var d := "[DATA|vente|1|1|12345]";
    var p := [e] + " " + "[[DATA|vente|1|1|12345]]";
    var x := ([e] + " [") + (d + w);
    var post := x + "\n" + t;
    assert |p| == 26 && |x| >= 26;
    assert forall i :: 0 <= i < 26 ==> x[i] == p[i] by {
      forall i | 0 <= i < 26 ensures x[i] == p[i] {
        if i < 3 {
        } else if i < 25 {
          assert x[i] == d[i - 3];
        } else {
          assert x[i] == w[0];
        }
      }
    }
    assert forall i :: 0 <= i < 26 ==> post[i] == x[i];
  }

  /** A line made of a character, a space and a tag. */
  lemma {:induction false} TagAt(ln: string, e: char, z: string)
    requires e != '[' && ln == [e] + " " + "[[DATA|vente|1|1|12345]]" + z
    ensures FindTag(ln) == Some(TagMatch(Vente, "1", "1", "12345"))
  {
    var q := "[[DATA|vente|1|1|12345]]";
    SpoofTag(z);
    ConcatAssoc([e], " ", q, z);
    TagAfterTwo(e, ' ', q + z);
  }

  lemma ConcatAssoc<T>(a: seq<T>, b: seq<T>, c: seq<T>, d: seq<T>)
    ensures a + b + c + d == a + (b + (c + d))
  {
  }

  /** No tag starts at two characters other than `[`. */
  lemma {:induction false} TagAfterTwo(e: char, f: char, r: string)
    requires e != '[' && f != '['
    ensures FindTag([e] + ([f] + r)) == FindTag(r)
  {
    var ln := [e] + ([f] + r);
    NoTagHere(ln);
    FindTagStep(ln);
    assert ln[1..] == [f] + r;
    NoTagHere([f] + r);
    FindTagStep([f] + r);
    assert ([f] + r)[1..] == r;
  }

  lemma {:induction false} SpoofTag(z: string)
    ensures MatchTag("[[DATA|vente|1|1|12345]]" + z) == Some(TagMatch(Vente, "1", "1", "12345"))
  {
    var s2 := "[[DATA|vente|1|1|12345]]" + z;
    assert s2 == "[[DATA|" + (KindText(Vente) + ("|" + ("1" + ("|" + ("1" + ("|" + ("12345" + ("]]" + z))))))));
    assert IsNum("1") by { assert SignLen("1") == 0 && "1"[0..] == "1"; }
    AdminIdFieldRest("12345", z);
    MatchTagOf(Vente, "1", "1", "12345" + ("]]" + z), "12345");
  }

  /** At least five digits, then `]]`: the admin id field reads those digits. */
  lemma {:induction false} AdminIdFieldRest(ids: string, z: string)
    requires |ids| >= 5 && AllDigits(ids)
    ensures AdminIdField(ids + ("]]" + z)) == Some(ids)
  {
    var s := ids + ("]]" + z);
    LeadingDigitsConcat(ids, "]]" + z);
    assert s[..|ids|] == ids && s[|ids|..] == "]]" + z;
    LitConcat("]]", z, "]]");
  }

  /** Not a `[`. */
  predicate Tame(c: char) { c != '[' }

  predicate TameText(s: string) { forall i :: 0 <= i < |s| ==> Tame(s[i]) }

  lemma {:induction false} TameConcat(a: string, b: string)
    requires TameText(a) && TameText(b)
    ensures TameText(a + b)
  {
    forall i | 0 <= i < |a + b| ensures Tame((a + b)[i]) {
      if i < |a| { assert (a + b)[i] == a[i]; } else { assert (a + b)[i] == b[i - |a|]; }
    }
  }

  lemma {:induction false} UnbrokenConcat(a: string, b: string)
    requires NoLineBreak(a) && NoLineBreak(b)
    ensures NoLineBreak(a + b)
  {
    forall i | 0 <= i < |a + b| ensures !IsLineBreak((a + b)[i]) {
      if i < |a| { assert (a + b)[i] == a[i]; } else { assert (a + b)[i] == b[i - |a|]; }
    }
  }

  /** No tag can start in a text without `[`. */
  lemma {:induction false} TameNoTag(s: string)
    requires TameText(s)
    ensures FindTag(s).None?
  {
    if s != [] {
      assert Lower(s[0]) != '[';
      assert TameText(s[1..]) by {
        forall i | 0 <= i < |s[1..]| ensures Tame(s[1..][i]) { assert s[1..][i] == s[i + 1]; }
      }
      TameNoTag(s[1..]);
    }
  }

  /** A displayed amount is made of digits, spaces, a comma and a sign. */
  lemma {:induction false} FmtAmountTame(x: real)
    ensures TameText(FmtAmount(x))
  {
    FmtAmountShape(x);
    var c := Cents(Abs(x));
    var sg, g, tw := SignText(x < 0.0), Group(NatToDigits(c / 100), ' '), TwoDigits(c % 100);
    assert FmtAmount(x) == sg + g + "," + tw;
    GroupTame(NatToDigits(c / 100));
    DigitsTame(tw);
    assert TameText(sg) && TameText(",");
    TameConcat(sg, g);
    TameConcat(sg + g, ",");
    TameConcat(sg + g + ",", tw);
  }

  lemma {:induction false} GroupTame(ds: string)
    requires AllDigits(ds)
    ensures TameText(Group(ds, ' '))
  {
    GroupShape'(ds, ' ');
    var g := Group(ds, ' ');
    forall i | 0 <= i < |g| ensures Tame(g[i]) {
      assert IsDigit(g[i]) || g[i] == ' ';
    }
  }

  /** The part of the human sentence after its opening `[`. */
  function HumanRest(k: Kind, display: string, m: real, rate: real): string {
    display + HumanWords(k, m, rate)
  }

  /** The human sentence after the display name. */
  function HumanWords(k: Kind, m: real, rate: real): string {
    "] a " + (Verb(k) + (" " + (FmtAmount(m)
      + (" M au taux de " + (FmtAmount(rate) + (" \U{20AC}/M \U{2014} soit "
      + (FmtAmount(CalcEuros(m, rate) as real / 100.0) + " \U{20AC}")))))))
  }

  lemma {:induction false} HumanWordsOfTame(k: Kind, m: real, rate: real)
    ensures TameText(HumanWords(k, m, rate)) && HumanWords(k, m, rate)[0] == ']'
  {
    FmtAmountTame(m);
    FmtAmountTame(rate);
    FmtAmountTame(CalcEuros(m, rate) as real / 100.0);
    VerbTame(k);
    HumanShapeTame(Verb(k), FmtAmount(m), FmtAmount(rate), FmtAmount(CalcEuros(m, rate) as real / 100.0));
  }

  lemma {:induction false} VerbTame(k: Kind)
    ensures TameText(Verb(k))
  {
    forall i | 0 <= i < |Verb(k)| ensures Tame(Verb(k)[i]) {
    }
  }

  /** The fixed words of the sentence hold no `[` and no line break. */
  lemma {:induction false} HumanWordsTame()
    ensures TameText("] a ") && TameText(" ") && TameText(" M au taux de ")
    ensures TameText(" \U{20AC}/M \U{2014} soit ") && TameText(" \U{20AC}")
  {
  }

  lemma {:induction false} HumanShapeTame(verb: string, a: string, b: string, c: string)
    requires TameText(verb) && TameText(a) && TameText(b) && TameText(c)
    ensures TameText("] a " + (verb + (" " + (a + (" M au taux de " + (b
              + (" \U{20AC}/M \U{2014} soit " + (c + " \U{20AC}"))))))))
  {
    HumanWordsTame();
    var p8 := c + " \U{20AC}";
    TameConcat(c, " \U{20AC}");
    var p7 := " \U{20AC}/M \U{2014} soit " + p8;
    TameConcat(" \U{20AC}/M \U{2014} soit ", p8);
    var p6 := b + p7;
    TameConcat(b, p7);
    var p5 := " M au taux de " + p6;
    TameConcat(" M au taux de ", p6);
    var p4 := a + p5;
    TameConcat(a, p5);
    var p3 := " " + p4;
    TameConcat(" ", p4);
    var p2 := verb + p3;
    TameConcat(verb, p3);
    var p1 := "] a " + p2;
    TameConcat("] a ", p2);
  }

  /** No two `[` in a row: where no tag can start. */
  predicate NoBracketPair(s: string) {
    forall i :: 0 <= i < |s| - 1 ==> !(s[i] == '[' && s[i + 1] == '[')
  }

  /** The human sentence carries no tag on any of its lines when the display
      name neither holds `[[` nor starts with `[`. */
  lemma {:induction false} HumanTextNoTag(k: Kind, display: string, m: real, rate: real)
    ensures NoBracketPair("[" + display) ==> FirstTag(SplitLines(HumanText(k, display, m, rate))).None?
  {
    if NoBracketPair("[" + display) {
      var h := HumanText(k, display, m, rate);
      HumanTextNoPair(k, display, m, rate);
      SplitLinesNoPair(h);
      var lines := SplitLines(h);
      forall i | 0 <= i < |lines| ensures FindTag(lines[i]).None? {
        NoPairNoTag(lines[i]);
      }
      FirstTagNone(lines);
    }
  }

  lemma {:induction false} HumanTextNoPair(k: Kind, display: string, m: real, rate: real)
    requires NoBracketPair("[" + display)
    ensures NoBracketPair(HumanText(k, display, m, rate))
  {
    var w := HumanWords(k, m, rate);
    HumanWordsOfTame(k, m, rate);
    assert HumanText(k, display, m, rate) == [Emoji(k)] + " [" + (display + w);
    NoPairShape(Emoji(k), display, w);
  }

  lemma {:induction false} NoPairShape(e: char, d: string, w: string)
    requires e != '[' && NoBracketPair("[" + d) && TameText(w) && w != [] && w[0] == ']'
    ensures NoBracketPair([e] + " [" + (d + w))
  {
    var x1 := [e] + " ";
    assert TameText(x1);
    TamePair(x1);
    TamePair(w);
    PairConcat(x1, "[" + d);
    PairConcat(x1 + ("[" + d), w);
    assert [e] + " [" + (d + w) == x1 + ("[" + d) + w;
  }

  lemma {:induction false} TamePair(s: string)
    requires TameText(s)
    ensures NoBracketPair(s)
  {
  }

  lemma {:induction false} PairConcat(a: string, b: string)
    requires NoBracketPair(a) && NoBracketPair(b)
    requires a == [] || b == [] || a[|a| - 1] != '[' || b[0] != '['
    ensures NoBracketPair(a + b)
  {
    var s := a + b;
    forall i | 0 <= i < |s| - 1 ensures !(s[i] == '[' && s[i + 1] == '[') {
      if i + 1 < |a| {
        assert s[i] == a[i] && s[i + 1] == a[i + 1];
      } else if i >= |a| {
        assert s[i] == b[i - |a|] && s[i + 1] == b[i + 1 - |a|];
      } else {
        assert s[i] == a[|a| - 1] && s[i + 1] == b[0];
      }
    }
  }

  lemma {:induction false} PairSlice(s: string, i: nat, j: nat)
    requires NoBracketPair(s) && i <= j <= |s|
    ensures NoBracketPair(s[i..j])
  {
    forall x | 0 <= x < j - i - 1 ensures !(s[i..j][x] == '[' && s[i..j][x + 1] == '[') {
      assert s[i..j][x] == s[i + x] && s[i..j][x + 1] == s[i + x + 1];
    }
  }

  /** Without two `[` in a row there is no tag. */
  lemma {:induction false} NoPairNoTag(s: string)
    requires NoBracketPair(s)
    ensures FindTag(s).None?
  {
    NoTagHere(s);
    if s != [] {
      FindTagStep(s);
      PairSlice(s, 1, |s|);
      assert s[1..|s|] == s[1..];
      NoPairNoTag(s[1..]);
    }
  }

  /** The lines of a text without two `[` in a row have none either. */
  lemma {:induction false} SplitLinesNoPair(s: string)
    requires NoBracketPair(s)
    ensures forall k :: 0 <= k < |SplitLines(s)| ==> NoBracketPair(SplitLines(s)[k])
    decreases |s|
  {
    if s != [] {
      var i := FirstBreak(s);
      if i == |s| {
        assert SplitLines(s) == [s];
      } else {
        var j := BreakEnd(s, i);
        SplitLinesStep(s, i, j);
        PairSlice(s, 0, i);
        PairSlice(s, j, |s|);
        assert s[0..i] == s[..i] && s[j..|s|] == s[j..];
        SplitLinesNoPair(s[j..]);
        PairLinesCons(s[..i], SplitLines(s[j..]));
      }
    }
  }

  lemma {:induction false} PairLinesCons(x: string, rest: seq<string>)
    requires NoBracketPair(x) && forall k :: 0 <= k < |rest| ==> NoBracketPair(rest[k])
    ensures forall k :: 0 <= k < |[x] + rest| ==> NoBracketPair(([x] + rest)[k])
  {
    forall k | 0 <= k < |[x] + rest| ensures NoBracketPair(([x] + rest)[k]) {
      if k > 0 { assert ([x] + rest)[k] == rest[k - 1]; }
    }
  }

  /** A tag can only start at `[[`. */
  lemma {:induction false} NoTagHere(s: string)
    requires s == [] || s[0] != '[' || |s| < 2 || s[1] != '['
    ensures MatchTag(s).None?
  {
    assert !CiPrefix(s, "[[data|") by {
      if |s| >= 7 {
        if s[0] != '[' {
          assert Lower(s[0]) != "[[data|"[0];
        } else {
          assert Lower(s[1]) != "[[data|"[1];
        }
      }
    }
    assert Lit(s, "[[data|").None?;
  }

  lemma {:induction false} FindTagStep(s: string)
    requires s != [] && MatchTag(s).None?
    ensures FindTag(s) == FindTag(s[1..])
  {
  }

  /** The machine tag is one line. */
  lemma {:induction false} TagTextUnbroken(k: Kind, m: Dec, rate: Dec, userId: nat)
    ensures NoLineBreak(TagText(k, m, rate, userId)) && TagText(k, m, rate, userId) != []
  {
    var mt, rt, ids := TagNumber(m), TagNumber(rate), NatToDigits(userId);
    TagNumberUnbroken(m);
    TagNumberUnbroken(rate);
    var p7 := ids + "]]";
    UnbrokenConcat(ids, "]]");
    var p6 := "|" + p7;
    UnbrokenConcat("|", p7);
    var p5 := rt + p6;
    UnbrokenConcat(rt, p6);
    var p4 := "|" + p5;
    UnbrokenConcat("|", p5);
    var p3 := mt + p4;
    UnbrokenConcat(mt, p4);
    var p2 := "|" + p3;
    UnbrokenConcat("|", p3);
    var p1 := KindText(k) + p2;
    UnbrokenConcat(KindText(k), p2);
    UnbrokenConcat("[[DATA|", p1);
  }

  lemma {:induction false} TagNumberUnbroken(d: Dec)
    ensures NoLineBreak(TagNumber(d))
  {
    var n := Normalize(d);
    var sg, ip, fp := SignText(n.mant < 0), IntPart(n), FracPart(n);
    assert TagNumber(d) == sg + ip + ("." + fp);
    PlainNumber(sg, ip, fp);
  }
}
