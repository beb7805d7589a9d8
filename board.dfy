/**
 * The sales pipeline board (`src/components/CRM/Board.tsx`): five fixed
 * stage columns, their counts, the total value, and drag-and-drop
 * forwarding through the drag event's data store.
 */
module Board {
  import opened Common
  import opened Records

  /** The column ids, left to right. */
  const Stages: seq<string> := ["prospect", "qualified", "proposal", "negotiation", "closed"]

  lemma StagesAreDistinct()
    ensures |Stages| == 5 && NoDuplicates(Stages)
  {
  }

  /** The cards of one column: the deals at that stage, in input order. */
  function Column(deals: seq<Deal>, stage: string): (r: seq<Deal>)
    ensures forall d :: d in r <==> d in deals && d.stage == stage
  {
    Filter(deals, (d: Deal) => d.stage == stage)
  }

  /** A column holds every copy of each deal at its stage and nothing else. */
  lemma ColumnMultiplicity(deals: seq<Deal>, stage: string)
    ensures forall d :: multiset(Column(deals, stage))[d] == if d.stage == stage then multiset(deals)[d] else 0
  {
    FilterMultiplicity(deals, (d: Deal) => d.stage == stage);
  }

  lemma ColumnIsSubsequence(deals: seq<Deal>, stage: string)
    ensures IsSubsequence(Column(deals, stage), deals)
  {
    FilterIsSubsequence(deals, (d: Deal) => d.stage == stage);
  }

  /** A deal appears in at most one column. */
  lemma DealInOneColumn(deals: seq<Deal>, d: Deal, i: nat, j: nat)
    requires d in deals && i < |Stages| && j < |Stages|
    requires d in Column(deals, Stages[i]) && d in Column(deals, Stages[j])
    ensures i == j
  {
    StagesAreDistinct();
  }

  lemma ColumnCons(d: Deal, rest: seq<Deal>, stage: string)
    ensures Column([d] + rest, stage) == (if d.stage == stage then [d] else []) + Column(rest, stage)
  {
    assert ([d] + rest)[1..] == rest;
  }

  /** The sum of the badge counts of the columns `stages`. */
  function CountSum(deals: seq<Deal>, stages: seq<string>): nat
    decreases |stages|
  {
    if stages == [] then 0 else |Column(deals, stages[0])| + CountSum(deals, stages[1..])
  }

  lemma {:induction false} CountSumEmpty(stages: seq<string>)
    ensures CountSum([], stages) == 0
    decreases |stages|
  {
    if stages != [] {
      CountSumEmpty(stages[1..]);
    }
  }

  /** Adding one deal in front raises the sum by one exactly when its stage is one of the (distinct) columns. */
  lemma {:induction false} CountSumCons(d: Deal, rest: seq<Deal>, stages: seq<string>)
    requires NoDuplicates(stages)
    ensures CountSum([d] + rest, stages) == CountSum(rest, stages) + (if d.stage in stages then 1 else 0)
    decreases |stages|
  {
    if stages != [] {
      assert NoDuplicates(stages[1..]) by {
        forall i, j | 0 <= i < j < |stages[1..]| ensures stages[1..][i] != stages[1..][j] {
          assert stages[1..][i] == stages[i + 1] && stages[1..][j] == stages[j + 1];
        }
      }
      CountSumCons(d, rest, stages[1..]);
      ColumnCons(d, rest, stages[0]);
      if d.stage == stages[0] {
        assert d.stage !in stages[1..] by {
          forall k | 0 <= k < |stages[1..]| ensures stages[1..][k] != stages[0] {
            assert stages[1..][k] == stages[k + 1];
          }
        }
      } else {
        assert d.stage in stages <==> d.stage in stages[1..] by {
          assert stages == [stages[0]] + stages[1..];
        }
      }
    }
  }

  /** When every deal's stage is a column id, the five badge counts add up to the number of deals. */
  lemma {:induction false} ColumnCountsSumToDeals(deals: seq<Deal>)
    requires forall d :: d in deals ==> d.stage in Stages
    ensures CountSum(deals, Stages) == |deals|
    decreases |deals|
  {
    if deals == [] {
      CountSumEmpty(Stages);
    } else {
      StagesAreDistinct();
      assert deals == [deals[0]] + deals[1..];
      ColumnCountsSumToDeals(deals[1..]);
      CountSumCons(deals[0], deals[1..], Stages);
    }
  }

  /** `deals.reduce((sum, deal) => sum + deal.value, 0)`, adding from the left. */
  function TotalValue(deals: seq<Deal>): real
    decreases |deals|
  {
    if deals == [] then 0.0 else TotalValue(deals[..|deals| - 1]) + deals[|deals| - 1].value
  }

  /** One deal's total is its value. */
  lemma TotalValueSingle(d: Deal)
    ensures TotalValue([d]) == d.value
  {
    assert [d][..0] == [];
  }

  /** The total of two lists joined is the sum of their totals. */
  lemma {:induction false} TotalValueAppend(a: seq<Deal>, b: seq<Deal>)
    ensures TotalValue(a + b) == TotalValue(a) + TotalValue(b)
    decreases |b|
  {
    if b != [] {
      var b' := b[..|b| - 1];
      assert (a + b)[..|a + b| - 1] == a + b';
      assert (a + b)[|a + b| - 1] == b[|b| - 1];
      TotalValueAppend(a, b');
    } else {
      assert a + b == a;
    }
  }

  /** The total is zero for no deals, and never negative when no deal's value is. */
  lemma {:induction false} TotalValueBounds(deals: seq<Deal>)
    ensures deals == [] ==> TotalValue(deals) == 0.0
    ensures (forall d :: d in deals ==> d.value >= 0.0) ==> TotalValue(deals) >= 0.0
    decreases |deals|
  {
    if deals != [] {
      var init := deals[..|deals| - 1];
      assert forall d :: d in init ==> d in deals;
      TotalValueBounds(init);
    }
  }

  /** `e.dataTransfer.getData(key)`: the stored text, or `""` when nothing is stored under the key. */
  function GetData(data: map<string, string>, key: string): (r: string)
    ensures key in data ==> r == data[key]
    ensures key !in data ==> r == ""
  {
    if key in data then data[key] else ""
  }

  const DealIdKey := "dealId"

  /** `handleDragStart`: stores the dragged deal's id in the drag data. */
  function DragStart(data: map<string, string>, dealId: string): (r: map<string, string>)
    ensures GetData(r, DealIdKey) == dealId
    ensures forall k :: k in data && k != DealIdKey ==> k in r && r[k] == data[k]
  {
    data[DealIdKey := dealId]
  }

  /** The arguments `handleDrop` passes to `onDragEnd`. */
  datatype DragEnd = DragEnd(dealId: string, newStage: string)

  /** `handleDrop`: the stored deal id and the stage of the column dropped on. */
  function Drop(data: map<string, string>, targetStage: string): (r: DragEnd)
    ensures r.newStage == targetStage
    ensures DealIdKey in data ==> r.dealId == data[DealIdKey]
    ensures DealIdKey !in data ==> r.dealId == ""
  {
    DragEnd(GetData(data, DealIdKey), targetStage)
  }

  /** Dropping a card on a column forwards that card's id and the column's stage unchanged. */
  lemma DropForwardsDraggedDeal(data: map<string, string>, dealId: string, targetStage: string)
    ensures Drop(DragStart(data, dealId), targetStage) == DragEnd(dealId, targetStage)
  {
  }
}
