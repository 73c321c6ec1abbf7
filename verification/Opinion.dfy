/** The scoring ledger of an asset opinion (quant-worker/smart_insights/asset_opinion_quant.py) with
    the value contracts of asset_opinion_contracts.py: pillar scores and contributions in fixed
    point, the final score, and the supporting and contradicting evidence. */
module Opinion {
  import opened Prelude
  import opened Sorting

  /** The pillar a metric counts for and its weight there. */
  datatype Rule = Rule(pillar: string, weight: real)

  /** A fact with the rule for its metric and its score, where it has them. */
  datatype Fact = Fact(id: string, metric: string, recent: bool, rule: Option<Rule>, score: Option<real>, confidence: real)

  /** A scored fact with the rule that weighs it. */
  datatype Candidate = Candidate(factId: string, metric: string, pillar: string, weight: real, score: real, confidence: real)

  datatype Pillar = Pillar(code: string, score: real, weight: real, available: real, confidence: real, contribution: real)

  datatype Input = Input(factId: string, pillar: string, weightedScore: real, contribution: real)

  datatype Ledger = Ledger(pillars: seq<Pillar>, inputs: seq<Input>)

  const HUNDREDTHS := 100.0
  const TEN_THOUSANDTHS := 10000.0

  // ---------------------------------------------------------------- one pillar

  function RowsOf(rows: seq<Candidate>, code: string): seq<Candidate> {
    if rows == [] then []
    else if rows[|rows| - 1].pillar == code then RowsOf(rows[..|rows| - 1], code) + [rows[|rows| - 1]]
    else RowsOf(rows[..|rows| - 1], code)
  }

  function Available(rows: seq<Candidate>): real {
    if rows == [] then 0.0 else Available(rows[..|rows| - 1]) + rows[|rows| - 1].weight
  }

  function WeightedScore(rows: seq<Candidate>): real {
    if rows == [] then 0.0 else WeightedScore(rows[..|rows| - 1]) + Times(rows[|rows| - 1].score, rows[|rows| - 1].weight)
  }

  function WeightedConfidence(rows: seq<Candidate>): real {
    if rows == [] then 0.0 else WeightedConfidence(rows[..|rows| - 1]) + Times(rows[|rows| - 1].confidence, rows[|rows| - 1].weight)
  }

  function PillarOf(code: string, weight: real, rows: seq<Candidate>): Pillar
    requires Available(rows) > 0.0
  {
    var score := Nearest(WeightedScore(rows) / Available(rows), HUNDREDTHS);
    Pillar(code, score, weight, Available(rows), Nearest(WeightedConfidence(rows) / Available(rows), HUNDREDTHS),
           Nearest(Times(score, weight), TEN_THOUSANDTHS))
  }

  function InputOf(row: Candidate, weight: real, available: real): Input
    requires available > 0.0
  {
    var weighted := Nearest(Times(row.score, row.weight), TEN_THOUSANDTHS);
    Input(row.factId, row.pillar, weighted, Nearest(Times(weighted / available, weight), TEN_THOUSANDTHS))
  }

  function InputsOf(rows: seq<Candidate>, weight: real, available: real): (r: seq<Input>)
    requires available > 0.0
    ensures |r| == |rows| && forall i :: 0 <= i < |r| ==> r[i] == InputOf(rows[i], weight, available)
  {
    seq(|rows|, i requires 0 <= i < |rows| => InputOf(rows[i], weight, available))
  }

  /** The contract of a pillar score. */
  predicate PillarAccepted(p: Pillar) {
    -100.0 <= p.score <= 100.0 && 0.0 <= p.weight <= 1.0 && 0.0 <= p.confidence <= 100.0 && 0.0 <= p.available <= 1.0
  }

  /** The contract of a decision input. */
  predicate InputAccepted(row: Candidate, weight: real) {
    -100.0 <= row.score <= 100.0 && 0.0 <= row.weight <= 1.0 && 0.0 <= weight <= 1.0
  }

  // ---------------------------------------------------------------- the candidates

  const MACRO := "macro"
  const REGIME := "macro.regime.score"
  const MACRO_LIMIT := 2
  const CANDIDATE_LIMIT := 12

  function CandidateOf(fact: Fact): Option<Candidate> {
    if fact.recent && fact.rule.Some? && fact.score.Some?
    then Some(Candidate(fact.id, fact.metric, fact.rule.value.pillar, fact.rule.value.weight, fact.score.value, fact.confidence))
    else None
  }

  predicate StartsWith(s: string, prefix: string) {
    |prefix| <= |s| && s[..|prefix|] == prefix
  }

  predicate Detailed(row: Candidate) {
    StartsWith(row.metric, "macro.") && row.metric != REGIME
  }

  function If(take: bool, row: Candidate): Option<Candidate> {
    if take then Some(row) else None
  }

  function NotRegime(row: Candidate): Option<Candidate> {
    If(row.metric != REGIME, row)
  }

  function IsMacro(row: Candidate): Option<Candidate> {
    If(row.pillar == MACRO, row)
  }

  /** Of the macro candidates only the given ones. */
  function Allowed(macro: seq<Candidate>): Candidate -> Option<Candidate> {
    (row: Candidate) => If(row.pillar != MACRO || Named(macro, row.factId), row)
  }

  /** The overall regime counts only where no detailed macro fact does. */
  function WithoutRegime(rows: seq<Candidate>): seq<Candidate> {
    if exists row | row in rows :: Detailed(row) then Collect(NotRegime, rows) else rows
  }

  /** A sort key: three numbers and two texts, smaller first. */
  datatype Rank = Rank(first: real, second: real, third: real, text: string, id: string)

  predicate RankLeq(a: Rank, b: Rank) {
    a.first < b.first || (a.first == b.first &&
      (a.second < b.second || (a.second == b.second &&
        (a.third < b.third || (a.third == b.third &&
          (if a.text != b.text then StringLeq(a.text, b.text) else StringLeq(a.id, b.id)))))))
  }

  function MacroRank(row: Candidate): Rank {
    Rank(-Abs(Times(row.score, row.weight)), 0.0, 0.0, row.metric, row.factId)
  }

  predicate MacroBefore(a: Candidate, b: Candidate) {
    RankLeq(MacroRank(a), MacroRank(b))
  }

  function WeightOf(weights: seq<(string, real)>, code: string): real {
    if weights == [] then 0.0
    else if weights[|weights| - 1].0 == code then weights[|weights| - 1].1
    else WeightOf(weights[..|weights| - 1], code)
  }

  function CandidateRank(weights: seq<(string, real)>, row: Candidate): Rank {
    Rank(-WeightOf(weights, row.pillar), -row.weight, -Abs(row.score), row.metric, row.factId)
  }

  function CandidateOrder(weights: seq<(string, real)>): (Candidate, Candidate) -> bool {
    (a: Candidate, b: Candidate) => RankLeq(CandidateRank(weights, a), CandidateRank(weights, b))
  }

  function First<T>(n: nat, s: seq<T>): (r: seq<T>)
    ensures |r| <= n && |r| <= |s|
  {
    if |s| <= n then s else s[..n]
  }

  /** The strongest macro candidates. */
  function MacroRows(rows: seq<Candidate>): (r: seq<Candidate>)
    ensures |r| <= MACRO_LIMIT
  {
    First(MACRO_LIMIT, Sort(MacroBefore, Collect(IsMacro, rows)))
  }

  predicate Named(rows: seq<Candidate>, id: string) {
    exists i | 0 <= i < |rows| :: rows[i].factId == id
  }

  /** The candidates before the final ranking. */
  function Kept(facts: seq<Fact>): seq<Candidate> {
    var rows := WithoutRegime(Collect(CandidateOf, facts));
    var macro := MacroRows(rows);
    Collect(Allowed(macro), rows)
  }

  /** The candidates the ledger is built from, strongest first. */
  function Selected(weights: seq<(string, real)>, facts: seq<Fact>): (r: seq<Candidate>)
    ensures |r| <= CANDIDATE_LIMIT
  {
    First(CANDIDATE_LIMIT, Sort(CandidateOrder(weights), Kept(facts)))
  }

  lemma RankOrder()
    ensures forall a, b :: RankLeq(a, b) || RankLeq(b, a)
    ensures forall a, b, c :: RankLeq(a, b) && RankLeq(b, c) ==> RankLeq(a, c)
    ensures forall a, b :: RankLeq(a, b) && RankLeq(b, a) ==> a == b
  {
    forall a, b
      ensures RankLeq(a, b) || RankLeq(b, a)
      ensures RankLeq(a, b) && RankLeq(b, a) ==> a == b
    {
      RanksCompare(a, b);
    }
    forall a, b, c | RankLeq(a, b) && RankLeq(b, c)
      ensures RankLeq(a, c)
    {
      RanksChain(a, b, c);
    }
  }

  lemma RanksCompare(a: Rank, b: Rank)
    ensures RankLeq(a, b) || RankLeq(b, a)
    ensures RankLeq(a, b) && RankLeq(b, a) ==> a == b
  {
    hide StringLeq;
    StringLeqTotal(a.text, b.text);
    StringLeqTotal(a.id, b.id);
    if StringLeq(a.text, b.text) && StringLeq(b.text, a.text) {
      StringLeqAntisymmetric(a.text, b.text);
    }
    if StringLeq(a.id, b.id) && StringLeq(b.id, a.id) {
      StringLeqAntisymmetric(a.id, b.id);
    }
  }

  lemma RanksChain(a: Rank, b: Rank, c: Rank)
    requires RankLeq(a, b) && RankLeq(b, c)
    ensures RankLeq(a, c)
  {
    hide StringLeq;
    if StringLeq(a.text, b.text) && StringLeq(b.text, c.text) {
      StringLeqTransitive(a.text, b.text, c.text);
      if a.text == c.text {
        StringLeqAntisymmetric(a.text, b.text);
      }
    }
    if StringLeq(a.id, b.id) && StringLeq(b.id, c.id) {
      StringLeqTransitive(a.id, b.id, c.id);
    }
  }

  lemma OrdersAreTotal(weights: seq<(string, real)>)
    ensures TotalOrder(MacroBefore) && TotalOrder(CandidateOrder(weights)) && TotalOrder(InputBefore)
  {
    RankOrder();
    hide RankLeq, MacroRank, CandidateRank, InputRank;
  }

  /** Every candidate comes from a fresh, scored fact with a rule. */
  lemma CandidatesAreScored(facts: seq<Fact>, row: Candidate)
    requires row in Kept(facts)
    ensures exists i :: 0 <= i < |facts| && CandidateOf(facts[i]) == Some(row)
    ensures row.metric == REGIME ==> forall other :: other in Kept(facts) ==> !Detailed(other)
  {
    var scored := Collect(CandidateOf, facts);
    var rows := WithoutRegime(scored);
    var macro := MacroRows(rows);
    hide MacroRows, Named, CandidateOf, Detailed;
    forall other | other in Kept(facts)
      ensures other in rows
    {
      CollectElements(Allowed(macro), rows, other);
    }
    forall other | other in rows
      ensures other in scored
      ensures (exists one | one in scored :: Detailed(one)) ==> other.metric != REGIME
    {
      CollectElements(NotRegime, scored, other);
    }
    CollectElements(CandidateOf, facts, row);
  }

  lemma FirstOfSorted<T(!new)>(leq: (T, T) -> bool, n: nat, s: seq<T>)
    requires Sorted(leq, s)
    ensures forall a, b :: a in First(n, s) && b in s && b !in First(n, s) ==> leq(a, b)
    ensures forall a :: a in First(n, s) ==> a in s
  {
    forall a, b | a in First(n, s) && b in s && b !in First(n, s)
      ensures leq(a, b)
    {
      var i :| 0 <= i < |First(n, s)| && First(n, s)[i] == a;
      var j :| 0 <= j < |s| && s[j] == b;
      assert forall k :: 0 <= k < |First(n, s)| ==> s[k] in First(n, s);
      assert s[i] == a;
    }
  }

  /** The ledger gets the best ranked candidates, at most twelve. */
  lemma SelectionIsStrongest(weights: seq<(string, real)>, facts: seq<Fact>)
    ensures forall row :: row in Selected(weights, facts) ==> row in Kept(facts)
    ensures forall row, other :: row in Selected(weights, facts) && other in Kept(facts) && other !in Selected(weights, facts) ==>
        CandidateOrder(weights)(row, other)
  {
    OrdersAreTotal(weights);
    hide TotalOrder, Sorted, CandidateOrder, Kept, First;
    SortSorts(CandidateOrder(weights), Kept(facts));
    FirstOfSorted(CandidateOrder(weights), CANDIDATE_LIMIT, Sort(CandidateOrder(weights), Kept(facts)));
    hide Sort;
  }

  /** Of the macro candidates only the strongest enter, at most two; all others do. */
  lemma MacroIsStrongest(facts: seq<Fact>)
    ensures var rows := WithoutRegime(Collect(CandidateOf, facts)); var macro := MacroRows(rows);
      && (forall row :: row in Kept(facts) <==> row in rows && (row.pillar == MACRO ==> exists one :: one in macro && one.factId == row.factId))
      && (forall row, other :: row in macro && other in rows && other.pillar == MACRO && other !in macro ==> MacroBefore(row, other))
  {
    var rows := WithoutRegime(Collect(CandidateOf, facts));
    var macro := MacroRows(rows);
    OrdersAreTotal([]);
    hide TotalOrder, Sorted, MacroBefore, WithoutRegime, First, Named;
    forall row
      ensures row in Kept(facts) <==> row in rows && (row.pillar == MACRO ==> exists one :: one in macro && one.factId == row.factId)
    {
      CollectElements(Allowed(macro), rows, row);
      NamedIff(macro, row.factId);
    }
    hide Kept, Allowed;
    MacroRanked(rows);
  }

  lemma NamedIff(rows: seq<Candidate>, id: string)
    ensures Named(rows, id) <==> exists one :: one in rows && one.factId == id
  {
    if one :| one in rows && one.factId == id {
      var i :| 0 <= i < |rows| && rows[i] == one;
    }
  }

  lemma MacroRanked(rows: seq<Candidate>)
    ensures forall row, other :: row in MacroRows(rows) && other in rows && other.pillar == MACRO && other !in MacroRows(rows) ==>
        MacroBefore(row, other)
  {
    OrdersAreTotal([]);
    hide TotalOrder, Sorted, MacroBefore, First;
    SortSorts(MacroBefore, Collect(IsMacro, rows));
    FirstOfSorted(MacroBefore, MACRO_LIMIT, Sort(MacroBefore, Collect(IsMacro, rows)));
    hide Sort, Collect;
    forall row, other | row in MacroRows(rows) && other in rows && other.pillar == MACRO && other !in MacroRows(rows)
      ensures MacroBefore(row, other)
    {
      CollectElements(IsMacro, rows, other);
    }
  }

  ghost predicate DistinctIds(facts: seq<Fact>) {
    forall i, j :: 0 <= i < j < |facts| ==> facts[i].id != facts[j].id
  }

  /** An id names one candidate. */
  ghost predicate IdsTell(rows: seq<Candidate>) {
    forall a, b :: a in rows && b in rows && a.factId == b.factId ==> a == b
  }

  lemma CandidateIds(facts: seq<Fact>)
    requires DistinctIds(facts)
    ensures IdsTell(Collect(CandidateOf, facts))
  {
    forall a, b | a in Collect(CandidateOf, facts) && b in Collect(CandidateOf, facts) && a.factId == b.factId
      ensures a == b
    {
      CollectElements(CandidateOf, facts, a);
      CollectElements(CandidateOf, facts, b);
    }
  }

  lemma FilteredIds(pick: Candidate -> Option<Candidate>, rows: seq<Candidate>)
    requires IdsTell(rows) && forall row :: pick(row).Some? ==> pick(row).value == row
    ensures IdsTell(Collect(pick, rows))
  {
    forall a | a in Collect(pick, rows)
      ensures a in rows
    {
      CollectElements(pick, rows, a);
    }
  }

  lemma SameElements<T>(s: seq<T>, t: seq<T>, x: T)
    requires multiset(s) == multiset(t)
    ensures x in s <==> x in t
  {
    assert x in s <==> x in multiset(s);
    assert x in t <==> x in multiset(t);
  }

  /** Ranking candidates that ids tell apart gives one list, whatever order they come in. */
  lemma SortIgnoresOrder(leq: (Candidate, Candidate) -> bool, s: seq<Candidate>, t: seq<Candidate>)
    requires TotalOrder(leq) && multiset(s) == multiset(t) && IdsTell(s)
    requires forall a, b :: leq(a, b) && leq(b, a) ==> a.factId == b.factId
    ensures Sort(leq, s) == Sort(leq, t)
  {
    SortSorts(leq, s);
    SortSorts(leq, t);
    SortedUnique(leq, Sort(leq, s), Sort(leq, t));
  }

  lemma RanksTell(weights: seq<(string, real)>)
    ensures forall a, b :: MacroBefore(a, b) && MacroBefore(b, a) ==> a.factId == b.factId
    ensures forall a, b :: CandidateOrder(weights)(a, b) && CandidateOrder(weights)(b, a) ==> a.factId == b.factId
  {
    RankOrder();
    hide RankLeq;
  }

  lemma RegimeIgnoresOrder(s: seq<Candidate>, t: seq<Candidate>)
    requires multiset(s) == multiset(t) && IdsTell(s)
    ensures multiset(WithoutRegime(s)) == multiset(WithoutRegime(t)) && IdsTell(WithoutRegime(s))
  {
    forall row {
      SameElements(s, t, row);
    }
    assert (exists row | row in s :: Detailed(row)) <==> (exists row | row in t :: Detailed(row));
    CollectPermutes(NotRegime, s, t);
    FilteredIds(NotRegime, s);
  }

  lemma KeptIgnoresOrder(facts: seq<Fact>, others: seq<Fact>)
    requires multiset(facts) == multiset(others) && DistinctIds(facts)
    ensures multiset(Kept(facts)) == multiset(Kept(others)) && IdsTell(Kept(facts))
  {
    var (s, t) := (Collect(CandidateOf, facts), Collect(CandidateOf, others));
    CollectPermutes(CandidateOf, facts, others);
    CandidateIds(facts);
    RegimeIgnoresOrder(s, t);
    var (rows, moved) := (WithoutRegime(s), WithoutRegime(t));
    OrdersAreTotal([]);
    RanksTell([]);
    hide TotalOrder, MacroBefore, WithoutRegime, DistinctIds, CandidateOf, RankLeq, Named;
    CollectPermutes(IsMacro, rows, moved);
    FilteredIds(IsMacro, rows);
    SortIgnoresOrder(MacroBefore, Collect(IsMacro, rows), Collect(IsMacro, moved));
    var macro := MacroRows(rows);
    assert macro == MacroRows(moved);
    CollectPermutes(Allowed(macro), rows, moved);
    FilteredIds(Allowed(macro), rows);
  }

  /** The ledger does not depend on the order in which the facts were collected. */
  lemma LedgerIgnoresFactOrder(weights: seq<(string, real)>, facts: seq<Fact>, others: seq<Fact>)
    requires multiset(facts) == multiset(others) && DistinctIds(facts)
    ensures FinalLedger(weights, facts) == FinalLedger(weights, others)
  {
    hide TotalOrder, DistinctIds, IdsTell, Kept, LedgerOf, Sort;
    KeptIgnoresOrder(facts, others);
    OrdersAreTotal(weights);
    RanksTell(weights);
    hide CandidateOrder;
    SortIgnoresOrder(CandidateOrder(weights), Kept(facts), Kept(others));
  }

  // ---------------------------------------------------------------- the ledger

  /** The pillars in configured order with their inputs; None when a contract refuses a value. */
  function LedgerOf(weights: seq<(string, real)>, rows: seq<Candidate>): Option<Ledger> {
    if weights == [] then Some(Ledger([], []))
    else
      var earlier := LedgerOf(weights[..|weights| - 1], rows);
      var (code, weight) := weights[|weights| - 1];
      var own := RowsOf(rows, code);
      if earlier.None? || own == [] || Available(own) <= 0.0 then earlier
      else
        var pillar := PillarOf(code, weight, own);
        if !PillarAccepted(pillar) || exists i | 0 <= i < |own| :: !InputAccepted(own[i], weight) then None
        else Some(Ledger(earlier.value.pillars + [pillar], earlier.value.inputs + InputsOf(own, weight, Available(own))))
  }

  function InputRank(input: Input): Rank {
    Rank(-Abs(input.contribution), 0.0, 0.0, "", input.factId)
  }

  predicate InputBefore(a: Input, b: Input) {
    RankLeq(InputRank(a), InputRank(b))
  }

  /** The ledger of the facts, its inputs strongest first. */
  function FinalLedger(weights: seq<(string, real)>, facts: seq<Fact>): Option<Ledger> {
    match LedgerOf(weights, Selected(weights, facts))
    case None => None
    case Some(ledger) => Some(ledger.(inputs := Sort(InputBefore, ledger.inputs)))
  }

  /** The final inputs are those of the pillars, the strongest first, ties by id. */
  lemma InputsAreRanked(weights: seq<(string, real)>, facts: seq<Fact>)
    requires FinalLedger(weights, facts).Some?
    ensures LedgerOf(weights, Selected(weights, facts)).Some?
    ensures var (ledger, inputs) := (LedgerOf(weights, Selected(weights, facts)).value, FinalLedger(weights, facts).value.inputs);
      && FinalLedger(weights, facts).value.pillars == ledger.pillars
      && multiset(inputs) == multiset(ledger.inputs)
      && (forall i, j :: 0 <= i < j < |inputs| ==> Abs(inputs[i].contribution) >= Abs(inputs[j].contribution))
  {
    hide Selected, LedgerOf;
    OrdersAreTotal(weights);
    hide TotalOrder;
    SortSorts(InputBefore, LedgerOf(weights, Selected(weights, facts)).value.inputs);
  }

  method DecisionLedger(weights: seq<(string, real)>, facts: seq<Fact>) returns (r: Option<Ledger>)
    ensures r == FinalLedger(weights, facts)
  {
    hide PillarOf, InputsOf, PillarAccepted, InputAccepted, Available, RowsOf, Selected;
    var rows := SelectCandidates(weights, facts);
    var pillars: seq<Pillar> := [];
    var inputs: seq<Input> := [];
    for k := 0 to |weights|
      invariant LedgerOf(weights[..k], rows) == Some(Ledger(pillars, inputs))
    {
      assert weights[..k + 1][..k] == weights[..k];
      var (code, weight) := weights[k];
      var own, available := CollectRows(rows, code);
      if own != [] && available > 0.0 {
        var pillar := PillarOf(code, weight, own);
        if !PillarAccepted(pillar) || exists i | 0 <= i < |own| :: !InputAccepted(own[i], weight) {
          LedgerFails(weights, k + 1, rows);
          return None;
        }
        pillars := pillars + [pillar];
        var added := CollectInputs(own, weight, available);
        inputs := inputs + added;
      }
    }
    assert weights[..|weights|] == weights;
    r := Some(Ledger(pillars, Sort(InputBefore, inputs)));
  }

  /** Filters and ranks the facts. */
  method SelectCandidates(weights: seq<(string, real)>, facts: seq<Fact>) returns (rows: seq<Candidate>)
    ensures rows == Selected(weights, facts)
  {
    rows := [];
    for i := 0 to |facts|
      invariant rows == Collect(CandidateOf, facts[..i])
    {
      assert facts[..i + 1][..i] == facts[..i];
      var candidate := CandidateOf(facts[i]);
      if candidate.Some? {
        rows := rows + [candidate.value];
      }
    }
    assert facts[..|facts|] == facts;
    rows := WithoutRegime(rows);
    var macro := MacroRows(rows);
    rows := Collect(Allowed(macro), rows);
    rows := First(CANDIDATE_LIMIT, Sort(CandidateOrder(weights), rows));
  }

  method CollectInputs(own: seq<Candidate>, weight: real, available: real) returns (inputs: seq<Input>)
    requires available > 0.0
    ensures inputs == InputsOf(own, weight, available)
  {
    hide InputOf;
    inputs := [];
    for i := 0 to |own|
      invariant |inputs| == i && forall j :: 0 <= j < i ==> inputs[j] == InputOf(own[j], weight, available)
    {
      inputs := inputs + [InputOf(own[i], weight, available)];
    }
  }

  method CollectRows(rows: seq<Candidate>, code: string) returns (own: seq<Candidate>, available: real)
    ensures own == RowsOf(rows, code) && available == Available(own)
  {
    own, available := [], 0.0;
    for i := 0 to |rows|
      invariant own == RowsOf(rows[..i], code) && available == Available(own)
    {
      assert rows[..i + 1][..i] == rows[..i];
      if rows[i].pillar == code {
        assert (own + [rows[i]])[..|own|] == own;
        own := own + [rows[i]];
        available := available + rows[i].weight;
      }
    }
    assert rows[..|rows|] == rows;
  }

  lemma {:induction false} LedgerFails(weights: seq<(string, real)>, n: nat, rows: seq<Candidate>)
    requires n <= |weights|
    ensures LedgerOf(weights[..n], rows).None? ==> LedgerOf(weights, rows).None?
  {
    if n == |weights| {
      assert weights[..n] == weights;
    } else {
      assert weights[..|weights| - 1][..n] == weights[..n];
      LedgerFails(weights[..|weights| - 1], n, rows);
    }
  }

  // ---------------------------------------------------------------- rounding of one pillar

  function Contributions(inputs: seq<Input>): real {
    if inputs == [] then 0.0 else Contributions(inputs[..|inputs| - 1]) + inputs[|inputs| - 1].contribution
  }

  lemma ScaleQuotient(x: real, a: real, w: real)
    requires a > 0.0
    ensures Times(x / a, w) == Times(x, w / a)
  {
  }

  lemma ScaledGap(x: real, y: real, k: real, gap: real)
    requires k >= 0.0 && Abs(x - y) <= gap
    ensures Abs(Times(x, k) - Times(y, k)) <= Times(gap, k)
  {
    assert Times(x, k) - Times(y, k) == Times(x - y, k);
    TimesMonotone(k, x - y, gap);
    TimesMonotone(k, -gap, x - y);
    TimesCommutative(k, x - y);
    TimesCommutative(k, gap);
    TimesCommutative(k, -gap);
    assert Times(-gap, k) == -Times(gap, k);
  }

  /** The error one input adds, in units of the contribution. */
  function InputError(weight: real, available: real): real
    requires available > 0.0
  {
    0.00005 + Times(0.00005, weight / available)
  }

  lemma InputRounding(row: Candidate, weight: real, available: real)
    requires available > 0.0 && weight >= 0.0
    ensures Abs(InputOf(row, weight, available).contribution - Times(Times(row.score, row.weight), weight / available))
        <= InputError(weight, available)
  {
    hide Nearest, Times;
    var exact := Times(row.score, row.weight);
    var weighted := Nearest(exact, TEN_THOUSANDTHS);
    NearestError(exact, TEN_THOUSANDTHS);
    NearestError(Times(weighted / available, weight), TEN_THOUSANDTHS);
    ScaleQuotient(weighted, available, weight);
    QuotientNonNegative(weight, available);
    ScaledGap(weighted, exact, weight / available, 0.00005);
  }

  lemma QuotientNonNegative(a: real, b: real)
    requires a >= 0.0 && b > 0.0
    ensures a / b >= 0.0
  {
  }

  lemma {:induction false} InputsRounding(rows: seq<Candidate>, weight: real, available: real)
    requires available > 0.0 && weight >= 0.0
    ensures Abs(Contributions(InputsOf(rows, weight, available)) - Times(WeightedScore(rows), weight / available))
        <= Times(|rows| as real, InputError(weight, available))
  {
    hide Times, InputOf, InputError;
    var inputs := InputsOf(rows, weight, available);
    if rows == [] {
      TimesOne(InputError(weight, available));
      TimesOne(weight / available);
    } else {
      var (init, last) := (rows[..|rows| - 1], rows[|rows| - 1]);
      assert inputs[..|rows| - 1] == InputsOf(init, weight, available);
      InputsRounding(init, weight, available);
      InputRounding(last, weight, available);
      TimesAdd(weight / available, WeightedScore(init), Times(last.score, last.weight));
      TimesAdd(InputError(weight, available), |init| as real, 1.0);
      TimesOne(InputError(weight, available));
    }
  }

  /** A configured weight of whole hundredths. */
  ghost predicate WholeHundredths(weight: real) {
    exists n: int :: Units(weight, n, HUNDREDTHS)
  }

  lemma ProductOfHundredths(m: int, n: int)
    ensures Times(m as real / 100.0, n as real / 100.0) == (m * n) as real / 10000.0
  {
    assert (m * n) as real == m as real * n as real;
  }

  /** With a weight of whole hundredths the contribution is the score times the weight, unrounded. */
  lemma ContributionIsExact(code: string, weight: real, rows: seq<Candidate>)
    requires Available(rows) > 0.0 && WholeHundredths(weight)
    ensures PillarOf(code, weight, rows).contribution == Times(PillarOf(code, weight, rows).score, weight)
  {
    hide Times, RoundHalfEven;
    var score := PillarOf(code, weight, rows).score;
    var m := RoundHalfEven(Times(WeightedScore(rows) / Available(rows), HUNDREDTHS));
    var n: int :| Units(weight, n, HUNDREDTHS);
    ProductOfHundredths(m, n);
    assert Units(Times(score, weight), m * n, TEN_THOUSANDTHS);
    NearestIsExact(Times(score, weight), TEN_THOUSANDTHS);
  }

  /** The unrounded score of a pillar. */
  function ExactScore(rows: seq<Candidate>): real
    requires Available(rows) > 0.0
  {
    WeightedScore(rows) / Available(rows)
  }

  lemma ScoreRounding(code: string, weight: real, rows: seq<Candidate>)
    requires Available(rows) > 0.0
    ensures Abs(PillarOf(code, weight, rows).score - ExactScore(rows)) <= 0.005
  {
    hide Nearest;
    NearestError(ExactScore(rows), HUNDREDTHS);
  }

  lemma InputsAgainstExact(rows: seq<Candidate>, weight: real)
    requires Available(rows) > 0.0 && weight >= 0.0
    ensures Abs(Contributions(InputsOf(rows, weight, Available(rows))) - Times(ExactScore(rows), weight))
        <= Times(|rows| as real, InputError(weight, Available(rows)))
  {
    hide *;
    ExactScoreIs(rows);
    InputsRounding(rows, weight, Available(rows));
    ScaleQuotient(WeightedScore(rows), Available(rows), weight);
  }

  lemma ExactScoreIs(rows: seq<Candidate>)
    requires Available(rows) > 0.0
    ensures ExactScore(rows) == WeightedScore(rows) / Available(rows)
  {
  }

  lemma CombineGaps(score: real, exact: real, weight: real, inputs: real, bound: real)
    requires weight >= 0.0 && Abs(score - exact) <= 0.005 && Abs(inputs - Times(exact, weight)) <= bound
    ensures Abs(Times(score, weight) - inputs) <= Times(0.005, weight) + bound
  {
    hide Times;
    ScaledGap(score, exact, weight, 0.005);
  }

  /** A pillar's contribution differs from the sum of its inputs' contributions by at most the
      rounding of its score and of each input. */
  lemma PillarAgreesWithInputs(code: string, weight: real, rows: seq<Candidate>)
    requires Available(rows) > 0.0 && 0.0 <= weight && WholeHundredths(weight)
    ensures Abs(PillarOf(code, weight, rows).contribution - Contributions(InputsOf(rows, weight, Available(rows))))
        <= Times(0.005, weight) + Times(|rows| as real, InputError(weight, Available(rows)))
  {
    hide *;
    ContributionIsExact(code, weight, rows);
    ScoreRounding(code, weight, rows);
    InputsAgainstExact(rows, weight);
    CombineGaps(PillarOf(code, weight, rows).score, ExactScore(rows), weight,
                Contributions(InputsOf(rows, weight, Available(rows))), Times(|rows| as real, InputError(weight, Available(rows))));
  }

  // ---------------------------------------------------------------- the score

  function Coverage(pillars: seq<Pillar>): real {
    if pillars == [] then 0.0 else Coverage(pillars[..|pillars| - 1]) + pillars[|pillars| - 1].weight
  }

  function PillarTotal(pillars: seq<Pillar>): real {
    if pillars == [] then 0.0 else PillarTotal(pillars[..|pillars| - 1]) + pillars[|pillars| - 1].contribution
  }

  /** The score over the covered weight, rounded twice as the source does. */
  function QuantScore(pillars: seq<Pillar>): real
    requires Coverage(pillars) > 0.0
  {
    Nearest(Nearest(PillarTotal(pillars), TEN_THOUSANDTHS) / Coverage(pillars), HUNDREDTHS)
  }

  /** A pillar whose contribution lies within its weight, in whole units of rounding. */
  ghost predicate Bounded(p: Pillar) {
    p.weight >= 0.0 && WholeHundredths(p.weight) && Abs(p.contribution) <= Times(100.0, p.weight)
  }

  ghost predicate AllBounded(pillars: seq<Pillar>) {
    forall i :: 0 <= i < |pillars| ==> Bounded(pillars[i])
  }

  lemma ContributionBounded(score: real, weight: real)
    requires -100.0 <= score <= 100.0 && weight >= 0.0
    ensures Abs(Times(score, weight)) <= Times(100.0, weight)
  {
    hide Times;
    ScaledGap(score, 0.0, weight, 100.0);
    TimesOne(weight);
  }

  /** The accepted pillars of a ledger with weights of whole hundredths are bounded. */
  lemma {:induction false} LedgerPillars(weights: seq<(string, real)>, rows: seq<Candidate>)
    requires forall k :: 0 <= k < |weights| ==> WholeHundredths(weights[k].1)
    ensures LedgerOf(weights, rows).Some? ==> AllBounded(LedgerOf(weights, rows).value.pillars)
  {
    if weights != [] && LedgerOf(weights, rows).Some? {
      var (init, last) := (weights[..|weights| - 1], weights[|weights| - 1]);
      hide PillarOf, InputAccepted, InputsOf, Available, RowsOf, WholeHundredths, Times, Bounded;
      LedgerPillars(init, rows);
      var own := RowsOf(rows, last.0);
      if own != [] && Available(own) > 0.0 {
        var pillar := PillarOf(last.0, last.1, own);
        PillarWeight(last.0, last.1, own);
        ContributionIsExact(last.0, last.1, own);
        ContributionBounded(pillar.score, last.1);
        BoundedIs(pillar);
      }
    }
  }

  lemma PillarWeight(code: string, weight: real, rows: seq<Candidate>)
    requires Available(rows) > 0.0
    ensures PillarOf(code, weight, rows).weight == weight
  {
    hide Nearest;
  }

  lemma BoundedIs(p: Pillar)
    requires p.weight >= 0.0 && WholeHundredths(p.weight) && Abs(p.contribution) <= Times(100.0, p.weight)
    ensures Bounded(p)
  {
  }

  lemma {:induction false} TotalBounded(pillars: seq<Pillar>)
    requires AllBounded(pillars)
    ensures Abs(PillarTotal(pillars)) <= Times(100.0, Coverage(pillars)) && WholeHundredths(Coverage(pillars))
  {
    hide Times;
    if pillars == [] {
      TimesOne(100.0);
      assert Units(0.0, 0, HUNDREDTHS);
    } else {
      var (init, last) := (pillars[..|pillars| - 1], pillars[|pillars| - 1]);
      TotalBounded(init);
      assert Bounded(last);
      TimesAdd(100.0, Coverage(init), last.weight);
      var m: int :| Units(Coverage(init), m, HUNDREDTHS);
      var n: int :| Units(last.weight, n, HUNDREDTHS);
      assert Units(Coverage(pillars), m + n, HUNDREDTHS);
    }
  }

  lemma HundredTimes(weight: real)
    requires WholeHundredths(weight)
    ensures Nearest(Times(100.0, weight), TEN_THOUSANDTHS) == Times(100.0, weight)
    ensures Nearest(-Times(100.0, weight), TEN_THOUSANDTHS) == -Times(100.0, weight)
  {
    var n: int :| Units(weight, n, HUNDREDTHS);
    assert Times(100.0, weight) == n as real;
    assert n as real == (n * 10000) as real / 10000.0;
    assert Units(n as real, n * 10000, TEN_THOUSANDTHS) && Units(-(n as real), -n * 10000, TEN_THOUSANDTHS);
    hide Nearest;
    NearestIsExact(n as real, TEN_THOUSANDTHS);
    NearestIsExact(-(n as real), TEN_THOUSANDTHS);
  }

  lemma RatioBounded(total: real, coverage: real)
    requires coverage > 0.0 && -Times(100.0, coverage) <= total <= Times(100.0, coverage)
    ensures -100.0 <= total / coverage <= 100.0
  {
    QuotientMonotone(total, Times(100.0, coverage), coverage);
    QuotientMonotone(-Times(100.0, coverage), total, coverage);
    CancelCoverage(100.0, coverage);
    CancelCoverage(-100.0, coverage);
    assert Times(-100.0, coverage) == -Times(100.0, coverage);
  }

  lemma CancelCoverage(x: real, coverage: real)
    requires coverage > 0.0
    ensures Times(x, coverage) / coverage == x
  {
  }

  lemma HundredIsExact()
    ensures Nearest(100.0, HUNDREDTHS) == 100.0 && Nearest(-100.0, HUNDREDTHS) == -100.0
  {
    assert Units(100.0, 10000, HUNDREDTHS) && Units(-100.0, -10000, HUNDREDTHS);
    hide Nearest;
    NearestIsExact(100.0, HUNDREDTHS);
    NearestIsExact(-100.0, HUNDREDTHS);
  }

  lemma ScoreOfBounded(pillars: seq<Pillar>)
    requires AllBounded(pillars) && Coverage(pillars) > 0.0
    ensures -100.0 <= QuantScore(pillars) <= 100.0
  {
    hide Nearest, Times, AllBounded, WholeHundredths;
    var (total, coverage) := (PillarTotal(pillars), Coverage(pillars));
    TotalBounded(pillars);
    HundredTimes(coverage);
    NearestBetween(total, -Times(100.0, coverage), Times(100.0, coverage), TEN_THOUSANDTHS);
    RatioBounded(Nearest(total, TEN_THOUSANDTHS), coverage);
    HundredIsExact();
    NearestBetween(Nearest(total, TEN_THOUSANDTHS) / coverage, -100.0, 100.0, HUNDREDTHS);
  }

  /** When the value contracts accept the inputs, the score stays between -100 and 100, so the
      opinion's own contract never rejects it. */
  lemma ScoreInRange(weights: seq<(string, real)>, rows: seq<Candidate>)
    requires LedgerOf(weights, rows).Some? && Coverage(LedgerOf(weights, rows).value.pillars) > 0.0
    requires forall k :: 0 <= k < |weights| ==> WholeHundredths(weights[k].1)
    ensures -100.0 <= QuantScore(LedgerOf(weights, rows).value.pillars) <= 100.0
  {
    hide *;
    LedgerPillars(weights, rows);
    ScoreOfBounded(LedgerOf(weights, rows).value.pillars);
  }

  // ---------------------------------------------------------------- evidence

  predicate Opposes(input: Input, positive: bool, flagged: set<string>) {
    input.factId in flagged || (if positive then input.contribution < 0.0 else input.contribution > 0.0)
  }

  /** The fact ids of the inputs against the direction, in input order. */
  function Contradicting(inputs: seq<Input>, positive: bool, flagged: set<string>): seq<string> {
    if inputs == [] then []
    else if Opposes(inputs[|inputs| - 1], positive, flagged)
    then Contradicting(inputs[..|inputs| - 1], positive, flagged) + [inputs[|inputs| - 1].factId]
    else Contradicting(inputs[..|inputs| - 1], positive, flagged)
  }

  predicate Favours(input: Input, positive: bool) {
    if positive then input.contribution > 0.0 else input.contribution < 0.0
  }

  /** The fact ids of the inputs with the direction that no input contradicts. */
  function Supporting(inputs: seq<Input>, positive: bool, contradicting: seq<string>): seq<string> {
    if inputs == [] then []
    else
      var last := inputs[|inputs| - 1];
      var earlier := Supporting(inputs[..|inputs| - 1], positive, contradicting);
      if last.factId !in contradicting && Favours(last, positive) then
        earlier + [last.factId]
      else earlier
  }

  datatype Evidence = Evidence(supporting: seq<string>, contradicting: seq<string>)

  function Prefix(ids: seq<string>, n: nat): seq<string> {
    if |ids| <= n then ids else ids[..n]
  }

  /** At most five supporting and three contradicting ids; no score counts as positive. */
  function EvidenceOf(inputs: seq<Input>, score: Option<real>, flagged: set<string>): Evidence {
    var positive := score.None? || score.value >= 0.0;
    var contradicting := Contradicting(inputs, positive, flagged);
    Evidence(Prefix(Supporting(inputs, positive, contradicting), 5), Prefix(contradicting, 3))
  }

  predicate Decides(inputs: seq<Input>, id: string) {
    exists i | 0 <= i < |inputs| :: inputs[i].factId == id
  }

  lemma {:induction false} ContradictingIds(inputs: seq<Input>, positive: bool, flagged: set<string>)
    ensures forall id :: id in Contradicting(inputs, positive, flagged) <==>
        exists i :: 0 <= i < |inputs| && inputs[i].factId == id && Opposes(inputs[i], positive, flagged)
  {
    if inputs != [] {
      var init := inputs[..|inputs| - 1];
      ContradictingIds(init, positive, flagged);
      assert inputs == init + [inputs[|inputs| - 1]];
    }
  }

  lemma {:induction false} SupportingIds(inputs: seq<Input>, positive: bool, contradicting: seq<string>)
    ensures forall id :: id in Supporting(inputs, positive, contradicting) <==>
        id !in contradicting && exists i :: 0 <= i < |inputs| && inputs[i].factId == id && Favours(inputs[i], positive)
  {
    if inputs != [] {
      var init := inputs[..|inputs| - 1];
      SupportingIds(init, positive, contradicting);
      assert inputs == init + [inputs[|inputs| - 1]];
    }
  }

  lemma PrefixIds(ids: seq<string>, n: nat)
    ensures |Prefix(ids, n)| <= n && forall id :: id in Prefix(ids, n) ==> id in ids
  {
  }

  /** Supporting and contradicting ids are disjoint, come from the decision inputs, and before they
      are cut to length every input that moves the score is in one of the two. */
  lemma EvidenceIsSeparated(inputs: seq<Input>, score: Option<real>, flagged: set<string>)
    ensures var e := EvidenceOf(inputs, score, flagged);
      && |e.supporting| <= 5 && |e.contradicting| <= 3
      && (forall id :: id in e.supporting ==> id !in e.contradicting && Decides(inputs, id))
      && (forall id :: id in e.contradicting ==> Decides(inputs, id))
    ensures var positive := score.None? || score.value >= 0.0;
      var contradicting := Contradicting(inputs, positive, flagged);
      forall i :: 0 <= i < |inputs| && inputs[i].contribution != 0.0 ==>
        (inputs[i].factId in contradicting) != (inputs[i].factId in Supporting(inputs, positive, contradicting))
  {
    var positive := score.None? || score.value >= 0.0;
    var contradicting := Contradicting(inputs, positive, flagged);
    ContradictingIds(inputs, positive, flagged);
    SupportingIds(inputs, positive, contradicting);
    PrefixIds(contradicting, 3);
    PrefixIds(Supporting(inputs, positive, contradicting), 5);
    hide Contradicting, Supporting, Prefix;
  }

  // ---------------------------------------------------------------- when the ledger is refused

  /** Within the contracts of facts, rules and confidence. */
  predicate InRange(row: Candidate) {
    -100.0 <= row.score <= 100.0 && 0.0 <= row.weight <= 1.0 && 0.0 <= row.confidence <= 100.0
  }

  predicate AllInRange(rows: seq<Candidate>) {
    forall row | row in rows :: InRange(row)
  }

  predicate WeightsInRange(weights: seq<(string, real)>) {
    forall k | 0 <= k < |weights| :: 0.0 <= weights[k].1 <= 1.0
  }

  lemma {:induction false} OwnRows(rows: seq<Candidate>, code: string)
    ensures forall row :: row in RowsOf(rows, code) ==> row in rows && row.pillar == code
  {
    if rows != [] {
      OwnRows(rows[..|rows| - 1], code);
      assert rows == rows[..|rows| - 1] + [rows[|rows| - 1]];
    }
  }

  lemma {:induction false} SumsInRange(rows: seq<Candidate>)
    requires AllInRange(rows)
    ensures -Times(100.0, Available(rows)) <= WeightedScore(rows) <= Times(100.0, Available(rows))
    ensures 0.0 <= WeightedConfidence(rows) <= Times(100.0, Available(rows))
    ensures Available(rows) >= 0.0
  {
    hide Times;
    TimesOne(100.0);
    if rows != [] {
      var (init, last) := (rows[..|rows| - 1], rows[|rows| - 1]);
      assert forall row :: row in init ==> row in rows;
      assert last in rows && InRange(last);
      SumsInRange(init);
      TimesAdd(100.0, Available(init), last.weight);
      ScaledGap(last.score, 0.0, last.weight, 100.0);
      TimesOne(last.weight);
      TimesNonNegative(last.confidence, last.weight);
      TimesMonotone(last.weight, last.confidence, 100.0);
      TimesCommutative(last.weight, last.confidence);
      TimesCommutative(last.weight, 100.0);
    }
  }

  lemma ZeroIsExact()
    ensures Nearest(0.0, HUNDREDTHS) == 0.0
  {
    assert Units(0.0, 0, HUNDREDTHS);
    hide Nearest;
    NearestIsExact(0.0, HUNDREDTHS);
  }

  /** Averages of values in range are in range, so only the available weight can be refused. */
  lemma PillarRefusedIff(code: string, weight: real, rows: seq<Candidate>)
    requires AllInRange(rows) && Available(rows) > 0.0 && 0.0 <= weight <= 1.0
    ensures PillarAccepted(PillarOf(code, weight, rows)) <==> Available(rows) <= 1.0
    ensures forall i :: 0 <= i < |rows| ==> InputAccepted(rows[i], weight)
  {
    hide Nearest, Times;
    SumsInRange(rows);
    HundredIsExact();
    ZeroIsExact();
    RatioBounded(WeightedScore(rows), Available(rows));
    NearestBetween(WeightedScore(rows) / Available(rows), -100.0, 100.0, HUNDREDTHS);
    RatioBounded(WeightedConfidence(rows), Available(rows));
    QuotientNonNegative(WeightedConfidence(rows), Available(rows));
    NearestBetween(WeightedConfidence(rows) / Available(rows), 0.0, 100.0, HUNDREDTHS);
    assert forall i :: 0 <= i < |rows| ==> rows[i] in rows;
  }

  /** A configured pillar whose selected inputs weigh more than one together. */
  predicate Overweight(weights: seq<(string, real)>, rows: seq<Candidate>) {
    exists k | 0 <= k < |weights| :: Available(RowsOf(rows, weights[k].0)) > 1.0
  }

  lemma {:induction false} LedgerRefusedIff(weights: seq<(string, real)>, rows: seq<Candidate>)
    requires AllInRange(rows) && WeightsInRange(weights)
    ensures LedgerOf(weights, rows).None? <==> Overweight(weights, rows)
  {
    if weights != [] {
      var (init, last) := (weights[..|weights| - 1], weights[|weights| - 1]);
      var own := RowsOf(rows, last.0);
      OwnRows(rows, last.0);
      hide PillarOf, InputsOf, PillarAccepted, InputAccepted, Available, RowsOf, InRange;
      LedgerRefusedIff(init, rows);
      assert Overweight(weights, rows) <==> Overweight(init, rows) || Available(own) > 1.0 by {
        assert weights == init + [last];
      }
      if Available(own) > 0.0 {
        NotEmpty(own);
        PillarRefusedIff(last.0, last.1, own);
      }
    }
  }

  lemma NotEmpty(rows: seq<Candidate>)
    requires Available(rows) > 0.0
    ensures rows != []
  {
  }

  predicate FactInRange(fact: Fact) {
    && (fact.score.Some? ==> -100.0 <= fact.score.value <= 100.0) && 0.0 <= fact.confidence <= 100.0
    && (fact.rule.Some? ==> 0.0 <= fact.rule.value.weight <= 1.0)
  }

  /** For facts and configured weights within their own contracts the opinion's ledger is refused
      exactly when the selected inputs of some pillar weigh more than one together. */
  lemma RefusedIffOverweight(weights: seq<(string, real)>, facts: seq<Fact>)
    requires WeightsInRange(weights) && forall i :: 0 <= i < |facts| ==> FactInRange(facts[i])
    ensures FinalLedger(weights, facts).None? <==> Overweight(weights, Selected(weights, facts))
  {
    hide Selected, Kept, LedgerOf, Overweight, CandidateOrder;
    SelectionIsStrongest(weights, facts);
    forall row | row in Selected(weights, facts)
      ensures InRange(row)
    {
      CandidatesAreScored(facts, row);
    }
    LedgerRefusedIff(weights, Selected(weights, facts));
  }

  function ForeignFlow(id: string): Candidate {
    Candidate(id, "equity.foreign_flow.net", "foreign_flow", 1.0, 10.0, 80.0)
  }

  /** Two recent foreign flow facts, each of full weight in their pillar, are refused. */
  lemma TwoForeignFlowsAreRefused()
    ensures LedgerOf([("foreign_flow", 0.2)], [ForeignFlow("a"), ForeignFlow("b")]).None?
  {
    var (rows, weights) := ([ForeignFlow("a"), ForeignFlow("b")], [("foreign_flow", 0.2)]);
    assert rows[..1] == [ForeignFlow("a")] && rows[..1][..0] == [];
    assert RowsOf([ForeignFlow("a")], "foreign_flow") == [ForeignFlow("a")];
    assert RowsOf(rows, "foreign_flow") == rows;
    assert Available([ForeignFlow("a")]) == 1.0;
    assert Available(RowsOf(rows, weights[0].0)) == 2.0;
    LedgerRefusedIff(weights, rows);
  }

  // ---------------------------------------------------------------- who is strongest

  /** The weight configured for a pillar; an unconfigured one has none. */
  lemma {:induction false} ConfiguredWeight(weights: seq<(string, real)>, k: nat)
    requires k < |weights| && forall i, j :: 0 <= i < j < |weights| ==> weights[i].0 != weights[j].0
    ensures WeightOf(weights, weights[k].0) == weights[k].1
  {
    if k < |weights| - 1 {
      ConfiguredWeight(weights[..|weights| - 1], k);
    }
  }

  lemma {:induction false} UnconfiguredWeight(weights: seq<(string, real)>, code: string)
    requires forall k :: 0 <= k < |weights| ==> weights[k].0 != code
    ensures WeightOf(weights, code) == 0.0
  {
    if weights != [] {
      UnconfiguredWeight(weights[..|weights| - 1], code);
    }
  }

  /** A macro candidate that enters moves the score at least as much as one that does not; among equals
      the metric that comes first enters, then the id that comes first. Two enter if there are two. */
  lemma MacroByStrength(rows: seq<Candidate>, one: Candidate, other: Candidate)
    requires one in MacroRows(rows) && other in rows && other.pillar == MACRO && other !in MacroRows(rows)
    ensures var (strength, weaker) := (Abs(Times(one.score, one.weight)), Abs(Times(other.score, other.weight)));
      && strength >= weaker
      && (strength == weaker && one.metric != other.metric ==>
            forall k :: !(FirstDifference(other.metric, one.metric, k)))
      && (strength == weaker && one.metric == other.metric && one.factId != other.factId ==>
            forall k :: !(FirstDifference(other.factId, one.factId, k)))
  {
    MacroRanked(rows);
    assert MacroBefore(one, other);
    hide Times, StringLeq, MacroRows;
    forall k | one.metric != other.metric && FirstDifference(other.metric, one.metric, k)
      ensures !StringLeq(one.metric, other.metric)
    {
      StringLeqIsLexicographic(other.metric, one.metric, k);
    }
    forall k | one.factId != other.factId && FirstDifference(other.factId, one.factId, k)
      ensures !StringLeq(one.factId, other.factId)
    {
      StringLeqIsLexicographic(other.factId, one.factId, k);
    }
  }

  /** As many enter as are allowed: two macro candidates, twelve candidates in all. */
  lemma AllPlacesAreTaken(weights: seq<(string, real)>, facts: seq<Fact>, rows: seq<Candidate>)
    ensures var all := |Kept(facts)|; |Selected(weights, facts)| == if all <= 12 then all else 12
    ensures var macro := |Collect(IsMacro, rows)|; |MacroRows(rows)| == if macro <= 2 then macro else 2
  {
  }

  /** A selected candidate has a pillar of at least the weight of one that was left out; then at least its
      own weight; then at least its score in size. */
  lemma SelectedByStrength(weights: seq<(string, real)>, facts: seq<Fact>, one: Candidate, other: Candidate)
    requires one in Selected(weights, facts) && other in Kept(facts) && other !in Selected(weights, facts)
    ensures var (pillar, weaker) := (WeightOf(weights, one.pillar), WeightOf(weights, other.pillar));
      && pillar >= weaker
      && (pillar == weaker ==> one.weight >= other.weight)
      && (pillar == weaker && one.weight == other.weight ==> Abs(one.score) >= Abs(other.score))
  {
    SelectionIsStrongest(weights, facts);
    assert CandidateOrder(weights)(one, other);
    hide Selected, Kept, StringLeq;
  }

  // ---------------------------------------------------------------- averages

  lemma {:induction false} SumsBetween(rows: seq<Candidate>, low: real, high: real)
    requires forall row :: row in rows ==> low <= row.score <= high && row.weight >= 0.0
    ensures Times(low, Available(rows)) <= WeightedScore(rows) <= Times(high, Available(rows)) && Available(rows) >= 0.0
  {
    hide Times;
    TimesOne(low);
    TimesOne(high);
    if rows != [] {
      var (init, last) := (rows[..|rows| - 1], rows[|rows| - 1]);
      assert last in rows && forall row :: row in init ==> row in rows;
      SumsBetween(init, low, high);
      TimesAdd(low, Available(init), last.weight);
      TimesAdd(high, Available(init), last.weight);
      TimesMonotone(last.weight, low, last.score);
      TimesMonotone(last.weight, last.score, high);
      TimesCommutative(last.weight, low);
      TimesCommutative(last.weight, last.score);
      TimesCommutative(last.weight, high);
    }
  }

  /** A pillar scores between the lowest and the highest of its inputs, taken to hundredths; so inputs
      that agree give their common score. Its contribution has the sign of its score. */
  lemma PillarIsAverage(code: string, weight: real, rows: seq<Candidate>, low: real, high: real)
    requires Available(rows) > 0.0 && weight >= 0.0 && Nearest(low, HUNDREDTHS) == low && Nearest(high, HUNDREDTHS) == high
    requires forall row :: row in rows ==> low <= row.score <= high && row.weight >= 0.0
    ensures var p := PillarOf(code, weight, rows);
      && low <= p.score <= high && p.code == code && p.weight == weight && p.available == Available(rows)
      && (low >= 0.0 ==> p.contribution >= 0.0) && (high <= 0.0 ==> p.contribution <= 0.0)
  {
    hide Nearest, Times;
    SumsBetween(rows, low, high);
    QuotientMonotone(Times(low, Available(rows)), WeightedScore(rows), Available(rows));
    QuotientMonotone(WeightedScore(rows), Times(high, Available(rows)), Available(rows));
    CancelCoverage(low, Available(rows));
    CancelCoverage(high, Available(rows));
    NearestBetween(WeightedScore(rows) / Available(rows), low, high, HUNDREDTHS);
    var score := PillarOf(code, weight, rows).score;
    NearestSign(Times(score, weight), TEN_THOUSANDTHS);
    if low >= 0.0 {
      TimesNonNegative(score, weight);
    }
    if high <= 0.0 {
      TimesNonNegative(-score, weight);
      NegatedTimes(score, weight);
    }
  }

  lemma NegatedTimes(a: real, b: real)
    ensures Times(-a, b) == -Times(a, b)
  {
  }

  lemma NearestSign(x: real, scale: real)
    requires scale > 0.0
    ensures x >= 0.0 ==> Nearest(x, scale) >= 0.0
    ensures x <= 0.0 ==> Nearest(x, scale) <= 0.0
  {
    var y := Times(x, scale);
    TimesNonNegative(if x >= 0.0 then x else -x, scale);
    NegatedTimes(x, scale);
    RoundMonotone(y, 0);
    QuotientSign(RoundHalfEven(y) as real, scale);
  }

  lemma QuotientSign(a: real, b: real)
    requires b > 0.0
    ensures a >= 0.0 ==> a / b >= 0.0
    ensures a <= 0.0 ==> a / b <= 0.0
  {
  }

  /** An input carries the sign of its score. */
  lemma InputHasSignOfScore(row: Candidate, weight: real, available: real)
    requires available > 0.0 && weight >= 0.0 && row.weight >= 0.0
    ensures var input := InputOf(row, weight, available);
      && input.factId == row.factId && input.pillar == row.pillar
      && (row.score >= 0.0 ==> input.contribution >= 0.0) && (row.score <= 0.0 ==> input.contribution <= 0.0)
  {
    hide Nearest, Times;
    var weighted := Nearest(Times(row.score, row.weight), TEN_THOUSANDTHS);
    NegatedTimes(row.score, row.weight);
    TimesNonNegative(if row.score >= 0.0 then row.score else -row.score, row.weight);
    NearestSign(Times(row.score, row.weight), TEN_THOUSANDTHS);
    QuotientSign(weighted, available);
    var share := weighted / available;
    NegatedTimes(share, weight);
    TimesNonNegative(if share >= 0.0 then share else -share, weight);
    NearestSign(Times(share, weight), TEN_THOUSANDTHS);
  }

  /** The score is the total contribution over the covered weight, up to the two roundings. */
  lemma ScoreIsWeightedMean(pillars: seq<Pillar>)
    requires Coverage(pillars) > 0.0
    ensures Abs(QuantScore(pillars) - PillarTotal(pillars) / Coverage(pillars)) <= 0.005 + 0.00005 / Coverage(pillars)
  {
    hide Nearest;
    var (total, coverage) := (PillarTotal(pillars), Coverage(pillars));
    var rounded := Nearest(total, TEN_THOUSANDTHS);
    NearestError(total, TEN_THOUSANDTHS);
    NearestError(rounded / coverage, HUNDREDTHS);
    QuotientSubtract(rounded, total, coverage);
    QuotientMonotone(rounded - total, 0.00005, coverage);
    QuotientMonotone(-0.00005, rounded - total, coverage);
    QuotientSubtract(0.0, 0.00005, coverage);
  }

  /** Coverage and total add up the pillars one by one. */
  lemma PillarsAddUp(pillars: seq<Pillar>, p: Pillar)
    ensures Coverage(pillars + [p]) == Coverage(pillars) + p.weight
    ensures PillarTotal(pillars + [p]) == PillarTotal(pillars) + p.contribution
    ensures Coverage([]) == PillarTotal([]) == 0.0
  {
    assert (pillars + [p])[..|pillars|] == pillars;
  }

  /** The overall regime takes part exactly when no other metric named "macro." does; all else stays. */
  lemma RegimeYields(rows: seq<Candidate>, row: Candidate)
    ensures var detailed := exists other :: other in rows && other.metric != REGIME && |other.metric| >= 6 && other.metric[..6] == "macro.";
      row in WithoutRegime(rows) <==> row in rows && !(detailed && row.metric == REGIME)
    ensures REGIME == "macro.regime.score"
  {
    CollectElements(NotRegime, rows, row);
    assert forall other :: other in rows ==> (Detailed(other) <==> other.metric != REGIME && |other.metric| >= 6 && other.metric[..6] == "macro.");
  }

  /** One pillar alone gives its own score to the opinion. */
  lemma OnePillarDecides(code: string, weight: real, rows: seq<Candidate>)
    requires Available(rows) > 0.0 && weight > 0.0 && WholeHundredths(weight)
    ensures Coverage([PillarOf(code, weight, rows)]) == weight
    ensures QuantScore([PillarOf(code, weight, rows)]) == PillarOf(code, weight, rows).score
  {
    var p := PillarOf(code, weight, rows);
    PillarsAddUp([], p);
    assert [] + [p] == [p];
    PillarWeight(code, weight, rows);
    ContributionIsExact(code, weight, rows);
    ContributionIsStored(code, weight, rows);
    ScoreIsStored(code, weight, rows);
    CancelCoverage(p.score, weight);
    hide PillarOf, Nearest, Times, Coverage, PillarTotal;
  }

  lemma ContributionIsStored(code: string, weight: real, rows: seq<Candidate>)
    requires Available(rows) > 0.0
    ensures Nearest(PillarOf(code, weight, rows).contribution, TEN_THOUSANDTHS) == PillarOf(code, weight, rows).contribution
  {
    var p := PillarOf(code, weight, rows);
    var x := Times(p.score, weight);
    assert Units(p.contribution, RoundHalfEven(Times(x, TEN_THOUSANDTHS)), TEN_THOUSANDTHS);
    hide Nearest, PillarOf, Times;
    NearestIsExact(p.contribution, TEN_THOUSANDTHS);
  }

  lemma ScoreIsStored(code: string, weight: real, rows: seq<Candidate>)
    requires Available(rows) > 0.0
    ensures Nearest(PillarOf(code, weight, rows).score, HUNDREDTHS) == PillarOf(code, weight, rows).score
  {
    var p := PillarOf(code, weight, rows);
    assert Units(p.score, RoundHalfEven(Times(WeightedScore(rows) / Available(rows), HUNDREDTHS)), HUNDREDTHS);
    hide Nearest, PillarOf, Times;
    NearestIsExact(p.score, HUNDREDTHS);
  }

  /** Supporting inputs push the score its own way and contradicting ones, unless they are flagged, push
      against it; without a score, upwards counts as its way. The ids keep the order of the inputs, so the
      strongest come first. */
  lemma EvidenceHasItsSign(inputs: seq<Input>, score: Option<real>, flagged: set<string>, id: string)
    ensures var (e, sign) := (EvidenceOf(inputs, score, flagged), if score.Some? && score.value < 0.0 then -1.0 else 1.0);
      && (id in e.supporting ==> id !in flagged && exists i :: 0 <= i < |inputs| && inputs[i].factId == id && Times(sign, inputs[i].contribution) > 0.0)
      && (id in e.contradicting && id !in flagged ==>
            exists i :: 0 <= i < |inputs| && inputs[i].factId == id && Times(sign, inputs[i].contribution) < 0.0)
  {
    var positive := score.None? || score.value >= 0.0;
    var contradicting := Contradicting(inputs, positive, flagged);
    ContradictingIds(inputs, positive, flagged);
    SupportingIds(inputs, positive, contradicting);
    PrefixIds(contradicting, 3);
    PrefixIds(Supporting(inputs, positive, contradicting), 5);
    hide Contradicting, Supporting, Prefix;
  }
}
