/** The classification table generated into the worker-profiles specification, between two markers. */
module ClassifierDoc {
  import opened Prelude
  import opened Texts
  import QueueView

  /** The pair of texts around a generated part. */
  datatype Markers = Markers(begin: string, end: string)

  // Long constants are spelled in short pieces: a fact about every character of a literal (that none starts
  // a marker, say) costs the verifier more than proportionally to the literal's length.

  const NAME := "GENERATED " + "ROLE/KIND " + "CLASSIFI" + "CATION -->"
  const MARKERS := Markers("<" + ("!-- BEGIN " + NAME), "<" + ("!-- END " + NAME))

  type Rule = QueueView.Rule<string>

  // ---- Searching a document ------------------------------------------------------------------

  /** The first occurrence of a nonempty text. */
  function Index(s: string, p: string): (r: Option<nat>)
    requires p != ""
    ensures r.Some? ==> OccursAt(s, p, r.value) && forall j | 0 <= j < r.value :: !OccursAt(s, p, j)
    ensures r.None? ==> forall j: nat :: !OccursAt(s, p, j)
    decreases |s|
  {
    if OccursAt(s, p, 0) then Some(0)
    else if s == "" then None
    else
      assert forall j: nat :: j > 0 ==> (OccursAt(s, p, j) <==> OccursAt(s[1..], p, j - 1)) by {
        forall j: nat | j > 0 ensures OccursAt(s, p, j) <==> OccursAt(s[1..], p, j - 1) {
          OccursLater(s, p, 1, j - 1);
        }
      }
      var rest := Index(s[1..], p);
      if rest.None? then None else Some(rest.value + 1)
  }

  lemma OccursLater(s: string, p: string, k: nat, j: nat)
    requires k <= |s|
    ensures OccursAt(s[k..], p, j) <==> OccursAt(s, p, k + j)
  {
    if k + j + |p| <= |s| {
      assert s[k..][j..j + |p|] == s[k + j..k + j + |p|];
    }
  }

  /** How often a text occurs, without overlaps. */
  function Count(s: string, p: string): nat
    requires p != ""
    decreases |s|
  {
    var i := Index(s, p);
    if i.None? then 0 else 1 + Count(s[i.value + |p|..], p)
  }

  /** A text whose first character occurs nowhere else in it cannot overlap itself. */
  predicate OpensOnce(p: string) { p != "" && forall m | 0 < m < |p| :: p[m] != p[0] }

  ghost predicate Nowhere(s: string, p: string) { forall j: nat :: !OccursAt(s, p, j) }

  /** `i` is the one place where a text occurs. */
  ghost predicate OnlyAt(s: string, p: string, i: nat) {
    OccursAt(s, p, i) && forall j: nat :: OccursAt(s, p, j) ==> j == i
  }

  lemma OccurrenceAt(s: string, p: string, j: nat)
    requires OccursAt(s, p, j)
    ensures forall m | 0 <= m < |p| :: s[j + m] == p[m]
  {
    forall m | 0 <= m < |p| ensures s[j + m] == p[m] {
      assert s[j..j + |p|][m] == s[j + m];
    }
  }

  /** Two occurrences of such a text do not overlap. */
  lemma OccurrencesApart(s: string, p: string, i: nat, j: nat)
    requires OpensOnce(p) && OccursAt(s, p, i) && OccursAt(s, p, j) && i < j
    ensures i + |p| <= j
  {
    OccurrenceAt(s, p, i);
    OccurrenceAt(s, p, j);
    var d := if j - i < |p| then j - i else 0;
    assert s[i + d] == p[d] && s[j + 0] == p[0];
  }

  lemma OnlyWhenNoneAfter(s: string, p: string, i: nat)
    requires OpensOnce(p) && OccursAt(s, p, i) && forall j | 0 <= j < i :: !OccursAt(s, p, j)
    ensures OnlyAt(s, p, i) <==> Nowhere(s[i + |p|..], p)
  {
    var k := i + |p|;
    forall j: nat ensures OccursAt(s[k..], p, j) <==> OccursAt(s, p, k + j) {
      OccursLater(s, p, k, j);
    }
    forall j: nat | OccursAt(s, p, j) && j != i ensures j >= k && OccursAt(s[k..], p, j - k) {
      OccurrencesApart(s, p, i, j);
      OccursLater(s, p, k, j - k);
    }
  }

  lemma NotCounted(s: string, p: string)
    requires p != ""
    ensures Count(s, p) == 0 <==> Nowhere(s, p)
  {
    var i := Index(s, p);
    assert i.Some? ==> OccursAt(s, p, i.value);
  }

  lemma CountedOnce(s: string, p: string, i: nat)
    requires OpensOnce(p) && Index(s, p) == Some(i)
    ensures Count(s, p) == 1 <==> OnlyAt(s, p, i)
  {
    OnlyWhenNoneAfter(s, p, i);
    hide OccursAt, OnlyAt;
    var rest := s[i + |p|..];
    assert Count(s, p) == 1 + Count(rest, p);
    assert Count(rest, p) == 0 <==> Nowhere(rest, p) by { NotCounted(rest, p); }
  }

  // ---- The table -------------------------------------------------------------------------------

  function Ticked(kinds: seq<string>): seq<string> {
    seq(|kinds|, i requires 0 <= i < |kinds| => "`" + kinds[i] + "`")
  }

  /** Joined by comma and blank. */
  function Listed(parts: seq<string>): string {
    if parts == [] then "" else if |parts| == 1 then parts[0] else parts[0] + ", " + Listed(parts[1..])
  }

  function RenderMatch(rule: Rule): string
    requires rule.Exact? ==> rule.kinds != []
  {
    match rule
    case Suffix(suffix, _) => "suffix `" + suffix + "`"
    case Fallback(_) => "every other kind"
    case Exact(kinds, _) =>
      var values := Ticked(kinds);
      if |values| == 1 then "exact " + values[0]
      else "exact " + Listed(Front(values)) + ", or " + Last(values)
  }

  predicate WellFormed(rules: seq<Rule>) { forall r <- rules :: r.Exact? ==> r.kinds != [] }

  function Rows(rules: seq<Rule>): string
    requires WellFormed(rules)
    decreases |rules|
  {
    if rules == [] then ""
    else
      assert Last(rules) in rules && WellFormed(Front(rules));
      Rows(Front(rules)) + ("| " + RenderMatch(Last(rules)) + " | `" + Last(rules).role + "` |\n")
  }

  const HEADING := "\n\n| Ordered " + "kind match " + "| Role |\n" + "| --- " + "| --- |\n"

  function Interior(rules: seq<Rule>): string
    requires WellFormed(rules)
  {
    HEADING + Rows(rules) + "\n"
  }

  function Table(rules: seq<Rule>): string
    requires WellFormed(rules)
  {
    MARKERS.begin + Interior(rules) + MARKERS.end
  }

  /** Three kinds of match, as a reader of the table sees them. */
  lemma MatchReads(suffix: string, a: string, b: string, c: string, role: string)
    ensures RenderMatch(QueueView.Suffix(suffix, role)) == "suffix `" + suffix + "`"
    ensures RenderMatch(QueueView.Fallback(role)) == "every other kind"
    ensures RenderMatch(QueueView.Exact([a], role)) == "exact `" + a + "`"
    ensures RenderMatch(QueueView.Exact([a, b], role)) == "exact `" + a + "`" + ", or " + ("`" + b + "`")
    ensures RenderMatch(QueueView.Exact([a, b, c], role))
            == "exact " + (("`" + a + "`") + ", " + ("`" + b + "`")) + ", or " + ("`" + c + "`")
  {
    assert Ticked([a]) == ["`" + a + "`"];
    assert "exact " + ("`" + a + "`") == "exact `" + a + "`";
    assert Ticked([a, b]) == ["`" + a + "`", "`" + b + "`"] && Front(Ticked([a, b])) == ["`" + a + "`"];
    assert Listed(["`" + a + "`"]) == "`" + a + "`";
    assert Ticked([a, b, c]) == ["`" + a + "`", "`" + b + "`", "`" + c + "`"];
    assert Front(Ticked([a, b, c])) == ["`" + a + "`", "`" + b + "`"];
    assert ["`" + a + "`", "`" + b + "`"][1..] == ["`" + b + "`"];
    assert Listed(["`" + a + "`", "`" + b + "`"]) == ("`" + a + "`") + ", " + ("`" + b + "`");
  }

  /** One row of the table. */
  lemma RowsMore(rules: seq<Rule>, rule: Rule)
    requires WellFormed(rules) && WellFormed([rule])
    ensures WellFormed(rules + [rule])
    ensures Rows(rules + [rule]) == Rows(rules) + ("| " + RenderMatch(rule) + " | `" + rule.role + "` |\n")
  {
    assert rule in [rule] && Front(rules + [rule]) == rules && Last(rules + [rule]) == rule;
  }

  /** The rows of a classification like the node's, one per rule and in its order. */
  lemma RowsRead(suffix: string, p: string, kind: string, q: string, other: string, t: string, rest: string)
    ensures var rules := [QueueView.Suffix(suffix, p), QueueView.Exact([kind], q), QueueView.Exact([other], t),
                          QueueView.Fallback(rest)];
            && WellFormed(rules)
            && Rows(rules) == ("| " + ("suffix `" + suffix + "`") + " | `" + p + "` |\n")
                              + ("| " + ("exact `" + kind + "`") + " | `" + q + "` |\n")
                              + ("| " + ("exact `" + other + "`") + " | `" + t + "` |\n")
                              + ("| " + "every other kind" + " | `" + rest + "` |\n")
  {
    var a, b, c, d := QueueView.Suffix(suffix, p), QueueView.Exact([kind], q), QueueView.Exact([other], t),
                      QueueView.Fallback(rest);
    MatchReads(suffix, "", "", "", p);
    MatchReads("", kind, "", "", q);
    MatchReads("", other, "", "", t);
    MatchReads("", "", "", "", rest);
    hide RenderMatch, Rows;
    NoRows();
    RowsMore([], a);
    RowsMore([a], b);
    RowsMore([a, b], c);
    RowsMore([a, b, c], d);
    assert [] + [a] == [a] && [a] + [b] == [a, b] && [a, b] + [c] == [a, b, c] && [a, b, c] + [d] == [a, b, c, d];
    AppendToNothing("| " + ("suffix `" + suffix + "`") + " | `" + p + "` |\n");
  }

  lemma AppendToNothing(s: string)
    ensures "" + s == s
  {
  }

  lemma NoRows()
    ensures Rows([]) == ""
  {
  }

  method GeneratedRows(rules: seq<Rule>) returns (r: string)
    requires WellFormed(rules)
    ensures r == Rows(rules)
  {
    r := "";
    for i := 0 to |rules|
      invariant r == Rows(rules[..i])
    {
      assert Front(rules[..i + 1]) == rules[..i] && rules[i] in rules;
      r := r + ("| " + RenderMatch(rules[i]) + " | `" + rules[i].role + "` |\n");
    }
    assert rules[..|rules|] == rules;
  }

  method GeneratedTable(rules: seq<Rule>) returns (r: string)
    requires WellFormed(rules)
    ensures r == Table(rules)
  {
    hide Rows;
    var rows := GeneratedRows(rules);
    r := MARKERS.begin + (HEADING + rows + "\n") + MARKERS.end;
  }

  predicate NoOpening(s: string) { '<' !in s }

  /** No text of any rule opens a marker. */
  predicate Plain(rules: seq<Rule>) {
    forall r <- rules ::
      NoOpening(r.role) && match r
      case Suffix(suffix, _) => NoOpening(suffix)
      case Exact(kinds, _) => forall k <- kinds :: NoOpening(k)
      case Fallback(_) => true
  }

  lemma {:induction false} ListedIsPlain(parts: seq<string>)
    requires forall p <- parts :: NoOpening(p)
    ensures NoOpening(Listed(parts))
  {
    assert NoOpening(", ");
    if parts != [] {
      assert parts[0] in parts;
    }
    if |parts| > 1 {
      ListedIsPlain(parts[1..]);
    }
  }

  lemma MatchIsPlain(rule: Rule)
    requires rule.Exact? ==> rule.kinds != []
    requires Plain([rule])
    ensures NoOpening(RenderMatch(rule))
  {
    assert rule in [rule];
    if rule.Exact? {
      var values := Ticked(rule.kinds);
      forall v <- values ensures NoOpening(v) {
        var i :| 0 <= i < |values| && values[i] == v;
        assert rule.kinds[i] in rule.kinds;
      }
      assert forall v <- Front(values) :: v in values;
      ListedIsPlain(Front(values));
      assert NoOpening("exact ") && NoOpening(", or ") && values[0] in values && Last(values) in values;
    }
  }

  lemma {:induction false} RowsArePlain(rules: seq<Rule>)
    requires WellFormed(rules) && Plain(rules)
    ensures NoOpening(Rows(rules))
    decreases |rules|
  {
    if rules != [] {
      assert Last(rules) in rules;
      RowsArePlain(Front(rules));
      MatchIsPlain(Last(rules));
    }
  }

  // ---- Replacing it ------------------------------------------------------------------------------

  datatype Refusal = LacksMarkers | DuplicateMarkers

  /** The document with what is between the markers, and the markers, replaced. */
  function Replaced(document: string, m: Markers, table: string): Result<string, Refusal>
    requires m.begin != "" && m.end != ""
  {
    var start, end := Index(document, m.begin), Index(document, m.end);
    if start.None? || end.None? || end.value < start.value then Err(LacksMarkers)
    else if Count(document, m.begin) != 1 || Count(document, m.end) != 1 then Err(DuplicateMarkers)
    else Ok(document[..start.value] + table + document[end.value + |m.end|..])
  }

  method ReplaceGeneratedTable(document: string, rules: seq<Rule>) returns (r: Result<string, Refusal>)
    requires WellFormed(rules)
    ensures r == Replaced(document, MARKERS, Table(rules))
  {
    hide Table, Interior, Rows, Count;
    var start, end := Index(document, MARKERS.begin), Index(document, MARKERS.end);
    if start.None? || end.None? || end.value < start.value {
      return Err(LacksMarkers);
    }
    if Count(document, MARKERS.begin) != 1 || Count(document, MARKERS.end) != 1 {
      return Err(DuplicateMarkers);
    }
    var table := GeneratedTable(rules);
    r := Ok(document[..start.value] + table + document[end.value + |MARKERS.end|..]);
  }

  /** Each marker opens once, with '<', and they differ soon after. */
  predicate Distinct(m: Markers) {
    && OpensOnce(m.begin) && OpensOnce(m.end) && m.begin[0] == m.end[0] == '<'
    && |m.begin| > 5 && |m.end| > 5 && m.begin[5] != m.end[5]
  }

  lemma MarkerOpensOnce(body: string)
    requires NoOpening(body)
    ensures OpensOnce("<" + body)
  {
    assert forall m | 0 <= m < |body| :: body[m] in body;
  }

  lemma MarkersAreDistinct()
    ensures Distinct(MARKERS)
  {
    hide OpensOnce;
    assert NoOpening(NAME) by {
      assert NoOpening("GENERATED ") && NoOpening("ROLE/KIND ") && NoOpening("CLASSIFI") && NoOpening("CATION -->");
    }
    assert NoOpening("!-- BEGIN ") && NoOpening("!-- END ");
    MarkerOpensOnce("!-- BEGIN " + NAME);
    MarkerOpensOnce("!-- END " + NAME);
    assert "!-- BEGIN "[4] == 'B' && "!-- END "[4] == 'E';
  }

  /** A document is accepted exactly when each marker occurs once, the first before the second. */
  lemma AcceptedExactlyWhen(document: string, m: Markers, table: string)
    requires Distinct(m)
    ensures Replaced(document, m, table).Ok? <==>
              exists b: nat, e: nat :: OnlyAt(document, m.begin, b) && OnlyAt(document, m.end, e) && b <= e
  {
    var b, e := Index(document, m.begin), Index(document, m.end);
    if b.Some? && e.Some? {
      CountedOnce(document, m.begin, b.value);
      CountedOnce(document, m.end, e.value);
    }
  }

  lemma AcceptedAt(document: string, m: Markers, table: string)
    requires Distinct(m) && Replaced(document, m, table).Ok?
    ensures var b, e := Index(document, m.begin).value, Index(document, m.end).value;
            OnlyAt(document, m.begin, b) && OnlyAt(document, m.end, e) && b + |m.begin| <= e
              && e + |m.end| <= |document|
  {
    var b, e := Index(document, m.begin).value, Index(document, m.end).value;
    CountedOnce(document, m.begin, b);
    CountedOnce(document, m.end, e);
    MarkersApart(document, m, b, e);
  }

  lemma MarkersApart(s: string, m: Markers, b: nat, e: nat)
    requires Distinct(m) && OccursAt(s, m.begin, b) && OccursAt(s, m.end, e) && b <= e
    ensures b + |m.begin| <= e
  {
    OccurrenceAt(s, m.begin, b);
    OccurrenceAt(s, m.end, e);
    assert s[b + 5] == m.begin[5] && s[e + 5] == m.end[5];
    var d := if e - b < |m.begin| then e - b else 0;
    assert s[b + d] == m.begin[d] && s[e + 0] == m.end[0];
  }

  /** A marker cannot start before a text that opens like it and run over into that text. */
  lemma StaysBefore(before: string, rest: string, p: string, j: nat)
    requires OpensOnce(p) && rest != "" && rest[0] == p[0]
    requires j < |before| && OccursAt(before + rest, p, j)
    ensures OccursAt(before, p, j)
  {
    var s := before + rest;
    OccurrenceAt(s, p, j);
    var n := if |before| - j < |p| then |before| - j else 0;
    assert s[|before|] == rest[0] && s[j + n] == p[n];
    assert j + |p| <= |before| ==> s[j..j + |p|] == before[j..j + |p|];
  }

  /** In a table, '<' opens the two markers and nothing else. */
  lemma OpeningsOfTable(m: Markers, interior: string, k: nat)
    requires Distinct(m) && NoOpening(interior)
    requires k < |m.begin + interior + m.end| && (m.begin + interior + m.end)[k] == '<'
    ensures k == 0 || k == |m.begin| + |interior|
  {
    assert forall i | 0 <= i < |interior| :: interior[i] in interior;
  }

  /** Between a text before and a text after that lack it, a marker occurs only at its place around the interior. */
  lemma OnlyInTheTable(before: string, m: Markers, interior: string, after: string, p: string, at: nat)
    requires Distinct(m) && NoOpening(interior)
    requires (p == m.begin && at == |before|) || (p == m.end && at == |before| + |m.begin| + |interior|)
    requires Nowhere(before, p) && Nowhere(after, p)
    ensures OnlyAt(before + (m.begin + interior + m.end) + after, p, at)
  {
    var table := m.begin + interior + m.end;
    var s := before + table + after;
    assert s[|before|..|before| + |m.begin|] == m.begin;
    assert s[|before| + |m.begin| + |interior|..|before| + |table|] == m.end;
    forall j: nat | OccursAt(s, p, j) ensures j == at {
      PlaceOf(before, m, interior, after, p, j);
    }
  }

  lemma PlaceOf(before: string, m: Markers, interior: string, after: string, p: string, j: nat)
    requires Distinct(m) && NoOpening(interior) && (p == m.begin || p == m.end)
    requires Nowhere(before, p) && Nowhere(after, p)
    requires OccursAt(before + (m.begin + interior + m.end) + after, p, j)
    ensures j == if p == m.begin then |before| else |before| + |m.begin| + |interior|
  {
    var table := m.begin + interior + m.end;
    var s := before + table + after;
    assert s == before + (table + after) && s[|before| + |table|..] == after;
    OccurrenceAt(s, p, j);
    assert !(j < |before|) by {
      if j < |before| { StaysBefore(before, table + after, p, j); }
    }
    assert !(j >= |before| + |table|) by {
      if j >= |before| + |table| { OccursLater(s, p, |before| + |table|, j - |before| - |table|); }
    }
    assert s[j + 0] == p[0] && s[j + 5] == p[5] && s[j] == table[j - |before|];
    OpeningsOfTable(m, interior, j - |before|);
    assert s[|before| + 5] == m.begin[5] && s[|before| + |m.begin| + |interior| + 5] == m.end[5];
  }

  /** Where a text occurs only once, it does not occur before or after that place. */
  lemma NoneAround(s: string, p: string, i: nat, from: nat, to: nat)
    requires OnlyAt(s, p, i) && p != "" && from <= i < to <= |s|
    ensures Nowhere(s[..from], p) && Nowhere(s[to..], p)
  {
    forall j: nat ensures OccursAt(s[..from], p, j) ==> OccursAt(s, p, j) {
      if j + |p| <= from {
        assert s[..from][j..j + |p|] == s[j..j + |p|];
      }
    }
    forall j: nat ensures !OccursAt(s[to..], p, j) {
      OccursLater(s, p, to, j);
    }
  }

  /**
   On every document it accepts: the text outside the markers stays, the result has each marker exactly
   once around the table, and generating again changes nothing.
   */
  lemma ReplacingAgainChangesNothing(document: string, m: Markers, interior: string)
    requires Distinct(m) && NoOpening(interior)
    requires Replaced(document, m, m.begin + interior + m.end).Ok?
    ensures var table := m.begin + interior + m.end;
            var r := Replaced(document, m, table).value;
            var b, e := Index(document, m.begin).value, Index(document, m.end).value;
            && r == document[..b] + table + document[e + |m.end|..]
            && OnlyAt(r, m.begin, b) && OnlyAt(r, m.end, b + |m.begin| + |interior|)
            && Replaced(r, m, table) == Ok(r)
  {
    hide OccursAt, OpensOnce, NoOpening;
    var b, e := Index(document, m.begin).value, Index(document, m.end).value;
    AcceptedAt(document, m, m.begin + interior + m.end);
    var before, after := document[..b], document[e + |m.end|..];
    NoneAround(document, m.begin, b, b, e + |m.end|);
    NoneAround(document, m.end, e, b, e + |m.end|);
    OnlyInTheTable(before, m, interior, after, m.begin, b);
    OnlyInTheTable(before, m, interior, after, m.end, b + |m.begin| + |interior|);
    hide OnlyAt, Distinct;
    Regenerated(before, m, interior, after);
  }

  lemma Regenerated(before: string, m: Markers, interior: string, after: string)
    requires Distinct(m)
    requires OnlyAt(before + (m.begin + interior + m.end) + after, m.begin, |before|)
    requires OnlyAt(before + (m.begin + interior + m.end) + after, m.end, |before| + |m.begin| + |interior|)
    ensures var r := before + (m.begin + interior + m.end) + after;
            Replaced(r, m, m.begin + interior + m.end) == Ok(r)
  {
    hide OccursAt;
    var table := m.begin + interior + m.end;
    var r := before + table + after;
    CountedOnce(r, m.begin, |before|);
    CountedOnce(r, m.end, |before| + |m.begin| + |interior|);
    hide OnlyAt, OpensOnce, Count;
    assert r[..|before|] == before && r[|before| + |table|..] == after;
  }

  /** So for the classification table, whatever the rules are called. */
  lemma RegeneratingChangesNothing(document: string, rules: seq<Rule>)
    requires WellFormed(rules) && Plain(rules)
    requires Replaced(document, MARKERS, Table(rules)).Ok?
    ensures var r := Replaced(document, MARKERS, Table(rules)).value;
            Replaced(r, MARKERS, Table(rules)) == Ok(r)
  {
    hide Replaced, Distinct, Interior;
    MarkersAreDistinct();
    InteriorIsPlain(rules);
    ReplacingAgainChangesNothing(document, MARKERS, Interior(rules));
  }

  lemma InteriorIsPlain(rules: seq<Rule>)
    requires WellFormed(rules) && Plain(rules)
    ensures NoOpening(Interior(rules))
  {
    hide Rows;
    RowsArePlain(rules);
    assert NoOpening("\n\n| Ordered ") && NoOpening("kind match ") && NoOpening("| Role |\n");
    assert NoOpening("| --- ") && NoOpening("| --- |\n") && NoOpening("\n");
  }
}
