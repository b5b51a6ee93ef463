/** The cumulative report (cogs/data.py, `_build_tables` and `_make_embed`):
    the journal entries split into purchases and sales, one monospace table
    per kind with a total line, a footer saying whether the balance is a profit,
    a loss or even, and the embed that carries the two tables.

    Euro amounts are integer cents: every entry's amount is already rounded to
    the cent, so the totals and the net are exact. */
module Report {
  import opened Text
  import opened Decimal
  import opened Journal

  // ---------------------------------------------------------------------------
  // Splitting and summing
  // ---------------------------------------------------------------------------

  /** The entries of one kind, in journal order. */
  function OfKind(lines: seq<Line>, k: Kind): (r: seq<Line>)
    ensures |r| <= |lines|
    ensures forall i :: 0 <= i < |r| ==> r[i].kind == k
  {
    if lines == [] then []
    else OfKind(lines[..|lines| - 1], k)
         + (if lines[|lines| - 1].kind == k then [lines[|lines| - 1]] else [])
  }

  function Achats(lines: seq<Line>): seq<Line> { OfKind(lines, Achat) }
  function Ventes(lines: seq<Line>): seq<Line> { OfKind(lines, Vente) }

  /** Every entry goes to exactly one of the two tables. */
  lemma {:induction false} SplitIsPartition(lines: seq<Line>)
    ensures multiset(Achats(lines)) + multiset(Ventes(lines)) == multiset(lines)
    ensures |Achats(lines)| + |Ventes(lines)| == |lines|
  {
    if lines != [] {
      SplitIsPartition(lines[..|lines| - 1]);
      SplitLast(lines);
    }
  }

  /** The partition of all but the last entry extends to the whole journal. */
  lemma {:induction false} SplitLast(lines: seq<Line>)
    requires lines != []
    requires multiset(Achats(lines[..|lines| - 1])) + multiset(Ventes(lines[..|lines| - 1])) == multiset(lines[..|lines| - 1])
    requires |Achats(lines[..|lines| - 1])| + |Ventes(lines[..|lines| - 1])| == |lines| - 1
    ensures multiset(Achats(lines)) + multiset(Ventes(lines)) == multiset(lines)
    ensures |Achats(lines)| + |Ventes(lines)| == |lines|
  {
    var init, last := lines[..|lines| - 1], lines[|lines| - 1];
    assert lines == init + [last];
    if last.kind == Achat {
      SplitStep(Achats(init), Ventes(init), init, last, lines, Achats(lines), Ventes(lines));
    } else {
      SplitStep(Ventes(init), Achats(init), init, last, lines, Ventes(lines), Achats(lines));
    }
  }

  /** The last entry joins one table and the other table is unchanged. */
  lemma {:induction false} SplitStep(x: seq<Line>, y: seq<Line>, init: seq<Line>, last: Line, lines: seq<Line>,
                                     x': seq<Line>, y': seq<Line>)
    requires multiset(x) + multiset(y) == multiset(init) && |x| + |y| == |init|
    requires lines == init + [last] && x' == x + [last] && y' == y
    ensures multiset(x') + multiset(y') == multiset(lines)
    ensures |x'| + |y'| == |lines|
  {
    assert multiset(x') == multiset(x) + multiset{last};
    assert multiset(lines) == multiset(init) + multiset{last};
  }

  /** The sum of the euro amounts, in cents. */
  function SumEuros(entries: seq<Line>): int {
    if entries == [] then 0 else SumEuros(entries[..|entries| - 1]) + entries[|entries| - 1].euros
  }

  lemma {:induction false} SumEurosAppend(a: seq<Line>, b: seq<Line>)
    ensures SumEuros(a + b) == SumEuros(a) + SumEuros(b)
    decreases |b|
  {
    if b == [] {
      assert a + b == a;
    } else {
      var b' := b[..|b| - 1];
      assert (a + b)[..|a + b| - 1] == a + b';
      SumEurosAppend(a, b');
    }
  }

  /** A total does not depend on the order of the entries. */
  lemma {:induction false} SumEurosPermutation(a: seq<Line>, b: seq<Line>)
    requires multiset(a) == multiset(b)
    ensures SumEuros(a) == SumEuros(b)
    decreases |a|
  {
    if a != [] {
      var x := a[|a| - 1];
      var a' := a[..|a| - 1];
      assert a == a' + [x];
      assert x in multiset(b);
      var j :| 0 <= j < |b| && b[j] == x;
      var b' := b[..j] + b[j + 1..];
      RemoveAt(b, j);
      assert multiset(a) == multiset(a') + multiset{x};
      assert multiset(a') == multiset(b') by {
        assert multiset(a') == multiset(a) - multiset{x};
        assert multiset(b') == multiset(b) - multiset{x};
      }
      SumEurosPermutation(a', b');
    }
  }

  /** Taking out the entry at `j` takes it out of the multiset and its
      amount out of the total. */
  lemma {:induction false} RemoveAt(b: seq<Line>, j: nat)
    requires j < |b|
    ensures multiset(b) == multiset(b[..j] + b[j + 1..]) + multiset{b[j]}
    ensures SumEuros(b) == SumEuros(b[..j] + b[j + 1..]) + b[j].euros
  {
    var x, l, r := b[j], b[..j], b[j + 1..];
    assert b == l + [x] + r;
    assert multiset(b) == multiset(l) + multiset([x]) + multiset(r);
    assert multiset(l + r) == multiset(l) + multiset(r);
    SumEurosAppend(l + [x], r);
    SumEurosAppend(l, [x]);
    SumEurosAppend(l, r);
    assert SumEuros([x]) == x.euros by { assert [x][..0] == []; }
  }

  /** Sales count positive, purchases negative: an independent reading of
      the balance. */
  function SignedSum(lines: seq<Line>): int {
    if lines == [] then 0
    else
      var last := lines[|lines| - 1];
      SignedSum(lines[..|lines| - 1]) + (if last.kind == Vente then last.euros else -last.euros)
  }

  /** The net of the report is the sales total minus the purchases total. */
  lemma {:induction false} NetIsSignedSum(lines: seq<Line>)
    ensures SumEuros(Ventes(lines)) - SumEuros(Achats(lines)) == SignedSum(lines)
  {
    if lines != [] {
      var init, last := lines[..|lines| - 1], lines[|lines| - 1];
      NetIsSignedSum(init);
      var e := if last.kind == Achat then [last] else [];
      var f := if last.kind == Vente then [last] else [];
      SumEurosAppend(Achats(init), e);
      SumEurosAppend(Ventes(init), f);
      assert SumEuros([last]) == last.euros by { assert [last][..0] == []; }
    }
  }

  // ---------------------------------------------------------------------------
  // render_section
  // ---------------------------------------------------------------------------

  const COLS: string := "Admin           | M (millions) | Taux \U{20AC}/M | \U{20AC}\n"
  const SEP: string := "----------------+--------------+----------+---------\n"
  const PLACEHOLDER: string := "(aucune entr\U{E9}e)\n"
  const EMOJI_TOTALS: string := "\U{1F9EE}"

  /** `(l.admin or "—")[:15]`, left-aligned on 15 columns. */
  function AdminCell(admin: string): (c: string)
    ensures |c| == 15
    ensures admin != "" ==> c == PadRight(Take(admin, 15), 15)
    ensures admin == "" ==> c == PadRight("\U{2014}", 15)
  {
    PadRight(Take(if admin == "" then "\U{2014}" else admin, 15), 15)
  }

  /** One table row. */
  function Row(l: Line): string {
    AdminCell(l.admin) + " | " + PadLeft(FmtAmount(l.mMillions), 12) + " | "
    + PadLeft(FmtAmount(l.rate), 8) + " | " + PadLeft(FmtAmount(l.euros as real / 100.0), 7) + "\n"
  }

  /** The rows of the entries, in order. */
  function Body(entries: seq<Line>): string {
    if entries == [] then "" else Body(entries[..|entries| - 1]) + Row(entries[|entries| - 1])
  }

  function TotalLine(title: string, total: int): string {
    EMOJI_TOTALS + " Total " + LowerStr(title) + " (\U{20AC})" + Spaces(23) + "= "
    + FmtAmount(total as real / 100.0) + "\n"
  }

  /** The section `render_section` returns. */
  function SectionText(emoji: string, title: string, entries: seq<Line>): string {
    var body := Body(entries);
    "```\n" + (emoji + " " + title + "\n") + COLS + SEP + (if body == "" then PLACEHOLDER else body)
    + TotalLine(title, SumEuros(entries)) + "```"
  }

  /** `render_section`: accumulates the rows and the total in one pass,
      then frames them with the header, the columns and the total line. */
  method RenderSection(emoji: string, title: string, entries: seq<Line>) returns (section: string, total: int)
    ensures section == SectionText(emoji, title, entries)
    ensures total == SumEuros(entries)
  {
    var header := emoji + " " + title + "\n";
    var body;
    body, total := RenderRows(entries);
    var totalLine := TotalLine(title, total);
    section := "```\n" + header + COLS + SEP + (if body == "" then PLACEHOLDER else body) + totalLine + "```";
  }

  /** The loop of `render_section`: one row per entry, and the running total. */
  method RenderRows(entries: seq<Line>) returns (body: string, total: int)
    ensures body == Body(entries)
    ensures total == SumEuros(entries)
  {
    body := "";
    total := 0;
    var i := 0;
    while i < |entries|
      invariant 0 <= i <= |entries|
      invariant body == Body(entries[..i])
      invariant total == SumEuros(entries[..i])
    {
      body, total := AddRow(entries, i, body, total);
      i := i + 1;
    }
    assert entries[..i] == entries;
  }

  /** One turn of the loop: the entry's row and its amount are added. */
  method AddRow(entries: seq<Line>, i: nat, body: string, total: int) returns (body': string, total': int)
    requires i < |entries| && body == Body(entries[..i]) && total == SumEuros(entries[..i])
    ensures body' == Body(entries[..i + 1]) && total' == SumEuros(entries[..i + 1])
  {
    RowsStep(entries, i);
    body' := body + Row(entries[i]);
    total' := total + entries[i].euros;
  }

  lemma {:induction false} RowsStep(entries: seq<Line>, i: nat)
    requires i < |entries|
    ensures Body(entries[..i + 1]) == Body(entries[..i]) + Row(entries[i])
    ensures SumEuros(entries[..i + 1]) == SumEuros(entries[..i]) + entries[i].euros
  {
    var p := entries[..i + 1];
    assert p[..i] == entries[..i] && p[i] == entries[i];
  }

  /** An empty section shows the placeholder row and a zero total; a
      non-empty one has one row per entry instead. */
  lemma {:induction false} BodyEmptyIff(entries: seq<Line>)
    ensures Body(entries) == "" <==> entries == []
  {
    if entries != [] {
      var r := Row(entries[|entries| - 1]);
      assert r[|r| - 1] == '\n';
    }
  }

  /** The admin column keeps the first 15 characters of the name, or a dash
      for a blank name, and pads them to 15. */
  lemma {:induction false} AdminCellShape(admin: string)
    ensures var shown := if admin == "" then "\U{2014}" else admin;
            var n := if |shown| < 15 then |shown| else 15;
            AdminCell(admin)[..n] == shown[..n]
            && forall i :: n <= i < 15 ==> AdminCell(admin)[i] == ' '
  {
  }

  // ---------------------------------------------------------------------------
  // The footer
  // ---------------------------------------------------------------------------

  /** `math.isclose(net, 0.0, abs_tol=0.005)` with the default relative
      tolerance `1e-09`. */
  predicate IsCloseToZero(net: real) {
    var tol := if 0.000000001 * Abs(net) > 0.005 then 0.000000001 * Abs(net) else 0.005;
    Abs(net) <= tol
  }

  /** Against zero the relative tolerance never wins: the test is the
      half-cent band. */
  lemma {:induction false} IsCloseToZeroBand(net: real)
    ensures IsCloseToZero(net) <==> Abs(net) <= 0.005
  {
  }

  datatype Balance = Even | Profit | Loss

  function BalanceOf(net: real): (b: Balance)
    ensures b == Even <==> Abs(net) <= 0.005
    ensures b == Profit <==> net > 0.005
    ensures b == Loss <==> net < -0.005
  {
    if IsCloseToZero(net) then Even else if net > 0.0 then Profit else Loss
  }

  /** On whole cents the half-cent band only holds zero. */
  lemma {:induction false} BalanceOfCents(netCents: int)
    ensures BalanceOf(netCents as real / 100.0) == Even <==> netCents == 0
    ensures BalanceOf(netCents as real / 100.0) == Profit <==> netCents > 0
    ensures BalanceOf(netCents as real / 100.0) == Loss <==> netCents < 0
  {
    var net := netCents as real / 100.0;
    if netCents > 0 { assert net >= 0.01; }
    if netCents < 0 { assert net <= -0.01; }
  }

  const EMOJI_EGAL: string := "\U{2696}\U{FE0F}"

  function FooterText(net: real): string {
    match BalanceOf(net)
    case Even => "**" + EMOJI_EGAL + " \U{C9}quilibre = " + FmtAmount(0.0) + " \U{20AC}**"
    case Profit => "**\U{1F4C8} B\U{E9}n\U{E9}fice net = +" + FmtAmount(net) + " \U{20AC}**"
    case Loss => "**\U{1F4C9} Perte nette = \U{2212}" + FmtAmount(Abs(net)) + " \U{20AC}**"
  }

  /** The footer for a net given in cents. */
  function FooterOf(netCents: int): string { FooterText(netCents as real / 100.0) }

  // ---------------------------------------------------------------------------
  // _build_tables
  // ---------------------------------------------------------------------------

  const EMOJI_ACHAT: string := "\U{1F4B0}"
  const EMOJI_VENTE: string := "\U{2B50}"
  const TITLE_ACHATS: string := "ACHATS"
  const TITLE_VENTES: string := "VENTES"

  /** The six results of `_build_tables`. */
  datatype Tables = Tables(secAchats: string, totAchats: int, secVentes: string, totVentes: int,
                           footer: string, net: int)

  function TablesOf(lines: seq<Line>): Tables {
    var net := SumEuros(Ventes(lines)) - SumEuros(Achats(lines));
    Tables(SectionText(EMOJI_ACHAT, TITLE_ACHATS, Achats(lines)), SumEuros(Achats(lines)),
           SectionText(EMOJI_VENTE, TITLE_VENTES, Ventes(lines)), SumEuros(Ventes(lines)),
           FooterOf(net), net)
  }

  method BuildTables(lines: seq<Line>) returns (t: Tables)
    ensures t == TablesOf(lines)
    ensures t.net == SignedSum(lines)
    ensures BalanceOf(t.net as real / 100.0) == Even <==> t.net == 0
  {
    var achats := Achats(lines);
    var ventes := Ventes(lines);
    var secA, totA := RenderSection(EMOJI_ACHAT, TITLE_ACHATS, achats);
    var secV, totV := RenderSection(EMOJI_VENTE, TITLE_VENTES, ventes);
    var net := totV - totA;
    var footer := FooterOf(net);
    t := Tables(secA, totA, secV, totV, footer, net);
    assert t == TablesOf(lines);
    TablesNet(lines);
  }

  /** The net of the tables is the signed sum, and the footer says "even"
      exactly when it is zero. */
  lemma {:induction false} TablesNet(lines: seq<Line>)
    ensures TablesOf(lines).net == SignedSum(lines)
    ensures BalanceOf(TablesOf(lines).net as real / 100.0) == Even <==> TablesOf(lines).net == 0
  {
    NetIsSignedSum(lines);
    BalanceOfCents(TablesOf(lines).net);
  }

  // ---------------------------------------------------------------------------
  // _make_embed
  // ---------------------------------------------------------------------------

  /** `s[:n]` for any integer `n`, negative ones counting from the end. */
  function PyPrefix(s: string, n: int): (r: string)
    ensures |r| <= |s| && r == s[..|r|]
    ensures n >= 0 ==> |r| == if n <= |s| then n else |s|
    ensures n < 0 ==> |r| == if -n <= |s| then |s| + n else 0
  {
    if n >= 0 then (if n <= |s| then s[..n] else s)
    else if -n <= |s| then s[..|s| + n] else []
  }

  /** `clamp`: texts longer than `maxlen` are cut and end with an ellipsis. */
  function Clamp(s: string, maxlen: int): string {
    if |s| > maxlen then PyPrefix(s, maxlen - 1) + "\U{2026}" else s
  }

  /** Short texts are kept; longer ones become a prefix plus `…`, exactly
      `maxlen` long. */
  lemma {:induction false} ClampBounds(s: string, maxlen: int)
    requires maxlen >= 1
    ensures |s| <= maxlen ==> Clamp(s, maxlen) == s
    ensures |s| > maxlen ==> |Clamp(s, maxlen)| == maxlen
                             && Clamp(s, maxlen) == s[..maxlen - 1] + "\U{2026}"
    ensures |Clamp(s, maxlen)| <= maxlen || Clamp(s, maxlen) == s
  {
  }

  datatype Field = Field(name: string, value: string)

  /** The embed: title, introduction, three fields and the update footer
      (its colour and inline flags are presentation and left out). */
  datatype Embed = Embed(title: string, description: string, fields: seq<Field>, footer: string)

  const TITLE: string := "\U{1F4CA} Bilan cumulatif \U{2014} Achats & Ventes"
  const INTRO: string := "Donn\U{E9}es cumulatives issues du journal. Montants en millions (M). Taux en \U{20AC}/M."
  const FIELD_LIMIT: int := 1000

  /** `_make_embed`; `now` is the Paris time text `_now_paris_str` returns.
      Each table is shown whole when it fits the field limit, and otherwise
      cut to the limit with a final `…`; the footer is shown whole. */
  function MakeEmbed(secAchats: string, secVentes: string, footer: string, now: string): (e: Embed)
    ensures |e.fields| == 3 && e.fields[2].value == footer
    ensures e.fields[0].name == "Achats" && e.fields[1].name == "Ventes"
    ensures |e.fields[0].value| <= FIELD_LIMIT && |e.fields[1].value| <= FIELD_LIMIT
    ensures |secAchats| <= FIELD_LIMIT ==> e.fields[0].value == secAchats
    ensures |secAchats| > FIELD_LIMIT ==> e.fields[0].value == secAchats[..FIELD_LIMIT - 1] + "\U{2026}"
    ensures |secVentes| <= FIELD_LIMIT ==> e.fields[1].value == secVentes
    ensures |secVentes| > FIELD_LIMIT ==> e.fields[1].value == secVentes[..FIELD_LIMIT - 1] + "\U{2026}"
  {
    ClampBounds(secAchats, FIELD_LIMIT);
    ClampBounds(secVentes, FIELD_LIMIT);
    Embed(TITLE, INTRO,
          [Field("Achats", Clamp(secAchats, FIELD_LIMIT)), Field("Ventes", Clamp(secVentes, FIELD_LIMIT)),
           Field("\U{200B}", footer)],
          "Derni\U{E8}re mise \U{E0} jour : " + now + " (heure de Paris)")
  }

  // ---------------------------------------------------------------------------
  // The empty report /data_ini shows
  // ---------------------------------------------------------------------------

  // The literals of `/data_ini`, written in pieces; each is the same text.
  const EMPTY_ACHATS: string :=
    "```\n" + ("\U{1F4B0}" + " " + "ACHATS" + "\n") + "Admin           | M (millions) | Taux \U{20AC}/M | \U{20AC}\n"
    + "----------------+--------------+----------+---------\n" + "(aucune entr\U{E9}e)\n"
    + ("\U{1F9EE}" + " Total " + "achats" + " (\U{20AC})" + "                       " + "= " + "0,00" + "\n") + "```"
  const EMPTY_VENTES: string :=
    "```\n" + ("\U{2B50}" + " " + "VENTES" + "\n") + "Admin           | M (millions) | Taux \U{20AC}/M | \U{20AC}\n"
    + "----------------+--------------+----------+---------\n" + "(aucune entr\U{E9}e)\n"
    + ("\U{1F9EE}" + " Total " + "ventes" + " (\U{20AC})" + "                       " + "= " + "0,00" + "\n") + "```"
  const EMPTY_FOOTER: string := "**" + "\U{2696}\U{FE0F}" + " \U{C9}quilibre = " + "0,00" + " \U{20AC}**"

  lemma {:induction false} FmtZero()
    ensures FmtAmount(0.0) == "0,00"
  {
    FmtAmountShape(0.0);
    ZeroCents();
    ZeroPieces();
  }

  lemma {:induction false} ZeroCents()
    ensures Cents(Abs(0.0)) == 0
  {
    assert Abs(0.0) == 0.0;
    assert RoundHalfEven(100.0 * 0.0) == 0;
  }

  lemma {:induction false} ZeroPieces()
    ensures SignText(false) + Group(NatToDigits(0 / 100), ' ') + "," + TwoDigits(0 % 100) == "0,00"
  {
    assert NatToDigits(0) == "0";
    assert Group("0", ' ') == "0";
    assert TwoDigits(0) == "00";
  }

  /** The hard-coded tables of `/data_ini` are exactly what rendering an
      empty journal produces. */
  lemma {:induction false} EmptyReportIsRendered()
    ensures TablesOf([]).secAchats == EMPTY_ACHATS
    ensures TablesOf([]).secVentes == EMPTY_VENTES
    ensures TablesOf([]).footer == EMPTY_FOOTER
    ensures TablesOf([]).net == 0
  {
    assert Achats([]) == [] && Ventes([]) == [];
    assert TablesOf([]).net == 0;
    EmptyAchats();
    EmptyVentes();
    EmptyFooter();
  }

  lemma {:induction false} EmptyAchats()
    ensures SectionText(EMOJI_ACHAT, TITLE_ACHATS, []) == EMPTY_ACHATS
  {
    EmptySection(EMOJI_ACHAT, TITLE_ACHATS, "achats");
  }

  lemma {:induction false} EmptyVentes()
    ensures SectionText(EMOJI_VENTE, TITLE_VENTES, []) == EMPTY_VENTES
  {
    EmptySection(EMOJI_VENTE, TITLE_VENTES, "ventes");
  }

  lemma {:induction false} EmptyFooter()
    ensures FooterOf(0) == EMPTY_FOOTER
  {
    assert (0 as real) / 100.0 == 0.0;
    FmtZero();
    BalanceOfCents(0);
  }

  lemma {:induction false} EmptySection(emoji: string, title: string, lower: string)
    requires LowerStr(title) == lower
    ensures SectionText(emoji, title, []) == "```\n" + (emoji + " " + title + "\n") + COLS + SEP + PLACEHOLDER
              + (EMOJI_TOTALS + " Total " + lower + " (\U{20AC})" + "                       " + "= " + "0,00" + "\n")
              + "```"
  {
    assert Body([]) == "" && SumEuros([]) == 0;
    FmtZero();
    assert Spaces(23) == "                       ";
    assert (0 as real) / 100.0 == 0.0;
  }
}
