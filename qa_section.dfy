/** The FAQ section: a table from question index to an "expanded" flag,
    flipped one key at a time by clicks, and the list it renders. */
module QASection {
  import opened JsValues

  /** The reading `activeQAIndices[index]` used by the render: an absent key
      is `undefined`, which is falsy, so it reads as collapsed. */
  function Expanded(m: map<nat, bool>, i: nat): (r: bool)
    ensures i !in m ==> !r
    ensures i in m ==> r == m[i]
  {
    i in m && m[i]
  }

  /** The updater `prev => ({...prev, [index]: !prev[index]})`: copies every
      entry and stores the negated reading at `i`. */
  function Toggled(m: map<nat, bool>, i: nat): (r: map<nat, bool>)
    ensures r.Keys == m.Keys + {i}
    ensures i in r && r[i] == !Expanded(m, i)
    ensures forall j :: j in m && j != i ==> r[j] == m[j]
  {
    m[i := !Expanded(m, i)]
  }

  /** The state `useState({})` holds, replaced on each click. */
  class QAState {
    var activeQAIndices: map<nat, bool>

    constructor ()
      ensures activeQAIndices == map[]
      ensures forall i :: !IsExpanded(i)
    {
      activeQAIndices := map[];
    }

    function IsExpanded(i: nat): bool
      reads this
    {
      Expanded(activeQAIndices, i)
    }

    /** `toggleQA(i)` */
    method Toggle(i: nat)
      modifies this
      ensures activeQAIndices == Toggled(old(activeQAIndices), i)
      ensures IsExpanded(i) == !old(IsExpanded(i))
      ensures forall j :: j != i ==> IsExpanded(j) == old(IsExpanded(j))
    {
      activeQAIndices := Toggled(activeQAIndices, i);
    }
  }

  /** Toggling flips the reading of its own index and of no other. */
  lemma ToggleFlipsOnlyItsIndex(m: map<nat, bool>, i: nat, j: nat)
    ensures Expanded(Toggled(m, i), j) == if j == i then !Expanded(m, j) else Expanded(m, j)
  {
  }

  /** Toggling twice restores every reading; the key then holds an explicit
      flag equal to its old reading, `false` if it was absent. */
  lemma ToggleTwiceRestores(m: map<nat, bool>, i: nat)
    ensures forall j :: Expanded(Toggled(Toggled(m, i), i), j) == Expanded(m, j)
    ensures Toggled(Toggled(m, i), i) == m[i := Expanded(m, i)]
  {
  }

  /** The state after clicking the indices `clicks` in order. */
  function ToggleAll(m: map<nat, bool>, clicks: seq<nat>): map<nat, bool>
    decreases |clicks|
  {
    if clicks == [] then m else ToggleAll(Toggled(m, clicks[0]), clicks[1..])
  }

  /** After any sequence of clicks an index reads as expanded iff its initial
      reading was flipped an odd number of times: items never collapse one
      another. */
  lemma {:induction false} ToggleAllParity(m: map<nat, bool>, clicks: seq<nat>, j: nat)
    ensures Expanded(ToggleAll(m, clicks), j) == (Expanded(m, j) != (multiset(clicks)[j] % 2 == 1))
    decreases |clicks|
  {
    if clicks != [] {
      ToggleAllParity(Toggled(m, clicks[0]), clicks[1..], j);
      assert clicks == [clicks[0]] + clicks[1..];
      assert multiset(clicks) == multiset{clicks[0]} + multiset(clicks[1..]);
    }
  }

  /** Starting from the initial state, clicking distinct questions leaves all
      of them expanded at once. */
  lemma {:induction false} DistinctClicksExpandAll(clicks: seq<nat>)
    requires forall a, b :: 0 <= a < b < |clicks| ==> clicks[a] != clicks[b]
    ensures forall k :: 0 <= k < |clicks| ==> Expanded(ToggleAll(map[], clicks), clicks[k])
  {
    forall k | 0 <= k < |clicks|
      ensures Expanded(ToggleAll(map[], clicks), clicks[k])
    {
      DistinctOccursOnce(clicks, k);
      ToggleAllParity(map[], clicks, clicks[k]);
    }
  }

  lemma {:induction false} DistinctOccursOnce(s: seq<nat>, k: nat)
    requires forall a, b :: 0 <= a < b < |s| ==> s[a] != s[b]
    requires k < |s|
    ensures multiset(s)[s[k]] == 1
  {
    if k == 0 {
      assert s == [s[0]] + s[1..];
      assert s[0] !in s[1..];
      assert multiset(s[1..])[s[0]] == 0;
    } else {
      DistinctOccursOnce(s[1..], k - 1);
      assert s == [s[0]] + s[1..];
    }
  }

  /** `content.qa`: the FAQ entries. */
  datatype QAItem = QAItem(question: string, answer: string)

  /** One rendered entry: its key, the question with its class name, and the
      answer paragraph when it is rendered. */
  datatype RenderedQA = RenderedQA(key: nat, question: string, className: string, answer: Option<string>)

  /** `content.qa || []`: an array is truthy even when empty. */
  function Items(qa: Option<seq<QAItem>>): (items: seq<QAItem>)
    ensures qa.None? ==> items == []
    ensures qa.Some? ==> items == qa.value
  {
    if qa.Some? then qa.value else []
  }

  /** One FAQ entry: the question, marked `active` when expanded, and the
      answer paragraph only when expanded. */
  function RenderOne(item: QAItem, k: nat, m: map<nat, bool>): (r: RenderedQA)
    ensures r.key == k && r.question == item.question
    ensures Expanded(m, k) ==> r.className == "active" && r.answer == Some(item.answer)
    ensures !Expanded(m, k) ==> r.className == "" && r.answer == None
  {
    RenderedQA(k, item.question, if Expanded(m, k) then "active" else "",
               if Expanded(m, k) then Some(item.answer) else None)
  }

  /** The list the section renders from the content and the toggle state. */
  function Render(qa: Option<seq<QAItem>>, m: map<nat, bool>): (out: seq<RenderedQA>)
    ensures qa.None? ==> out == []
    ensures |out| == |Items(qa)|
    ensures forall k :: 0 <= k < |out| ==>
              && out[k].key == k
              && out[k].question == Items(qa)[k].question
              && (out[k].className == "active" <==> Expanded(m, k))
              && (!Expanded(m, k) ==> out[k].className == "")
              && (out[k].answer.Some? <==> Expanded(m, k))
              && (out[k].answer.Some? ==> out[k].answer.value == Items(qa)[k].answer)
  {
    var items := Items(qa);
    seq(|items|, k requires 0 <= k < |items| => RenderOne(items[k], k, m))
  }

  /** Before any click nothing is expanded: no question is marked active and
      no answer is shown. */
  lemma InitialRenderCollapsed(qa: Option<seq<QAItem>>)
    ensures forall k :: 0 <= k < |Render(qa, map[])| ==>
              Render(qa, map[])[k].className == "" && Render(qa, map[])[k].answer.None?
  {
  }
}
