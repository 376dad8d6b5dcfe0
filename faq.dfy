/** The FAQ accordion (src/components/FAQSection.tsx): one `openIndex`
    shared by six questions, toggled by each question's button. */
module Faq {
  import opened Text

  /** `faqs.length` */
  const QuestionCount := 6

  /** The index `toggleFAQ(index)` leaves open: none when `index` was the
      open one, otherwise `index`. */
  function Toggle(open: Option<int>, index: int): (r: Option<int>)
    ensures r == None || r == Some(index)
    ensures r == None <==> open == Some(index)
  {
    if open == Some(index) then None else Some(index)
  }

  /** Pressing the same question twice comes back to where it started when
      that question was closed before, and to all-closed when it was open. */
  lemma ToggleTwice(open: Option<int>, index: int)
    ensures open != Some(index) ==> Toggle(Toggle(open, index), index) == None
    ensures open == Some(index) ==> Toggle(Toggle(open, index), index) == Some(index)
  {
  }

  /** What item `index` shows: its answer panel, `aria-expanded`, and the
      minus icon (instead of the plus) are all driven by one comparison. */
  datatype ItemView = ItemView(panelShown: bool, ariaExpanded: bool, minusIcon: bool)

  function Item(open: Option<int>, index: int): (v: ItemView)
    ensures v.panelShown == v.ariaExpanded == v.minusIcon
    ensures v.panelShown <==> open == Some(index)
  {
    var isOpen := open == Some(index);
    ItemView(isOpen, isOpen, isOpen)
  }

  /** How many of the items `from`, ..., `QuestionCount - 1` show their
      answer. */
  function ShownFrom(open: Option<int>, from: nat): nat
    requires from <= QuestionCount
    decreases QuestionCount - from
  {
    if from == QuestionCount then 0
    else (if Item(open, from).panelShown then 1 else 0) + ShownFrom(open, from + 1)
  }

  lemma {:induction false} ShownFromCount(open: Option<int>, from: nat)
    requires from <= QuestionCount
    ensures ShownFrom(open, from) == (if open.Some? && from <= open.value < QuestionCount then 1 else 0)
    decreases QuestionCount - from
  {
    if from < QuestionCount {
      ShownFromCount(open, from + 1);
    }
  }

  /** At most one answer is shown, and exactly one while the open index is
      one of the six questions. */
  lemma AtMostOneShown(open: Option<int>)
    ensures ShownFrom(open, 0) <= 1
    ensures ShownFrom(open, 0) == 1 <==> open.Some? && 0 <= open.value < QuestionCount
  {
    ShownFromCount(open, 0);
  }

  class FaqSection {
    var openIndex: Option<int>

    /** The first question starts open. */
    constructor ()
      ensures openIndex == Some(0)
    {
      openIndex := Some(0);
    }

    /** `toggleFAQ` */
    method ToggleFaq(index: int)
      modifies this
      ensures openIndex == Toggle(old(openIndex), index)
    {
      openIndex := if openIndex == Some(index) then None else Some(index);
    }
  }

  /** Every button press keeps the open index on one of the questions, or
      none, so exactly zero or one answer is shown from the first render
      on. */
  lemma PressesKeepOneOpen(presses: seq<int>)
    requires forall k :: 0 <= k < |presses| ==> 0 <= presses[k] < QuestionCount
    ensures var open := ToggleAll(Some(0), presses);
      open.None? || 0 <= open.value < QuestionCount
  {
    PressesStayInRange(Some(0), presses);
  }

  function ToggleAll(open: Option<int>, presses: seq<int>): Option<int>
    decreases |presses|
  {
    if presses == [] then open else ToggleAll(Toggle(open, presses[0]), presses[1..])
  }

  lemma {:induction false} PressesStayInRange(open: Option<int>, presses: seq<int>)
    requires open.None? || 0 <= open.value < QuestionCount
    requires forall k :: 0 <= k < |presses| ==> 0 <= presses[k] < QuestionCount
    ensures var r := ToggleAll(open, presses); r.None? || 0 <= r.value < QuestionCount
    decreases |presses|
  {
    if presses != [] {
      PressesStayInRange(Toggle(open, presses[0]), presses[1..]);
    }
  }
}
