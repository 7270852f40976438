/** The client's side of speculative prefill: the response stream is passed on unchanged while its
    text is collected, and handed over once, when a choice first reports that it has finished. */
module PrefillStream {
  import opened Wrappers

  datatype Choice = Choice(text: Option<string>, finished: bool)

  /** A stream item: its response choices, if it carries a response, and everything else. */
  datatype Item<T> = Item(choices: Option<seq<Choice>>, rest: T)

  function ChoicesOf<T>(item: Item<T>): seq<Choice> { if item.choices.Some? then item.choices.value else [] }

  function AllChoices<T>(items: seq<Item<T>>): seq<Choice> {
    if items == [] then [] else AllChoices(items[..|items| - 1]) + ChoicesOf(items[|items| - 1])
  }

  function Text(choices: seq<Choice>): string {
    if choices == [] then ""
    else
      var last := choices[|choices| - 1].text;
      Text(choices[..|choices| - 1]) + if last.Some? then last.value else ""
  }

  lemma TextOne(c: Choice)
    ensures Text([]) == "" && Text([c]) == if c.text.Some? then c.text.value else ""
  {
    assert [c][..0] == [];
  }

  /** The text of a stream is that of its parts, one after the other. */
  lemma {:induction false} TextJoins(a: seq<Choice>, b: seq<Choice>)
    ensures Text(a + b) == Text(a) + Text(b)
    decreases |b|
  {
    hide Text;
    if b == [] {
      TextOne(Choice(None, false));
      assert a + b == a && Text(a) + "" == Text(a);
    } else {
      var init, last := b[..|b| - 1], b[|b| - 1];
      TextJoins(a, init);
      assert b == init + [last] && a + b == a + init + [last];
      TextSnoc(a + init, last);
      TextSnoc(init, last);
      var x := if last.text.Some? then last.text.value else "";
      assert Text(a) + Text(init) + x == Text(a) + (Text(init) + x);
    }
  }

  lemma NoChoices<T>()
    ensures AllChoices<T>([]) == []
  {
  }

  lemma ChoicesOne<T>(items: seq<Item<T>>, item: Item<T>)
    ensures AllChoices(items + [item]) == AllChoices(items) + ChoicesOf(item)
  {
    assert (items + [item])[..|items|] == items;
  }

  /** The choices of a stream are those of its items, one after the other. */
  lemma {:induction false} ChoicesJoin<T>(a: seq<Item<T>>, b: seq<Item<T>>)
    ensures AllChoices(a + b) == AllChoices(a) + AllChoices(b)
    decreases |b|
  {
    hide AllChoices, ChoicesOf;
    if b == [] {
      NoChoices<T>();
      assert a + b == a && AllChoices(a) + [] == AllChoices(a);
    } else {
      var init, last := b[..|b| - 1], b[|b| - 1];
      ChoicesJoin(a, init);
      assert b == init + [last] && a + b == a + init + [last];
      ChoicesOne(a + init, last);
      ChoicesOne(init, last);
      assert AllChoices(a) + AllChoices(init) + ChoicesOf(last) == AllChoices(a) + (AllChoices(init) + ChoicesOf(last));
    }
  }

  predicate Finishes(choices: seq<Choice>) { exists i :: 0 <= i < |choices| && choices[i].finished }

  /** The choices up to and including the first that has finished; all of them if none has. */
  function Turn(choices: seq<Choice>): seq<Choice> {
    if choices == [] then []
    else
      var init := choices[..|choices| - 1];
      if Finishes(init) then Turn(init) else choices
  }

  lemma {:induction false} TurnEnds(choices: seq<Choice>)
    requires Finishes(choices)
    ensures var t := Turn(choices);
            && t != [] && t <= choices && t[|t| - 1].finished && !Finishes(t[..|t| - 1])
  {
    var init := choices[..|choices| - 1];
    if Finishes(init) {
      TurnEnds(init);
    } else {
      assert choices == init + [choices[|choices| - 1]];
      FinishesSnoc(init, choices[|choices| - 1]);
    }
  }

  /** What has been handed over: nothing before the first finish, and then for good the text up to it. */
  predicate HandedOver(choices: seq<Choice>, sent: Option<string>) {
    sent == if Finishes(choices) then Some(Text(Turn(choices))) else None
  }

  lemma FinishesSnoc(choices: seq<Choice>, c: Choice)
    ensures Finishes(choices + [c]) <==> Finishes(choices) || c.finished
  {
    var more := choices + [c];
    if Finishes(choices) {
      var i :| 0 <= i < |choices| && choices[i].finished;
      assert more[i].finished;
    }
    if c.finished { assert more[|choices|].finished; }
  }

  lemma TextSnoc(choices: seq<Choice>, c: Choice)
    ensures Text(choices + [c]) == Text(choices) + if c.text.Some? then c.text.value else ""
  {
    assert (choices + [c])[..|choices|] == choices;
  }

  lemma HandOver(choices: seq<Choice>, c: Choice, sent: Option<string>)
    requires HandedOver(choices, sent)
    ensures HandedOver(choices + [c], if !Finishes(choices) && c.finished then Some(Text(choices + [c])) else sent)
  {
    FinishesSnoc(choices, c);
    assert (choices + [c])[..|choices|] == choices;
  }

  /** The state that the mapped stream keeps between items. */
  class Tap {
    var accumulated: string
    var open: bool
    var sent: Option<string>
    ghost var seen: seq<Choice>

    ghost predicate Valid()
      reads this
    {
      accumulated == Text(seen) && (open <==> !Finishes(seen)) && HandedOver(seen, sent)
    }

    constructor ()
      ensures Valid() && seen == []
    {
      accumulated, open, sent, seen := "", true, None, [];
    }

    /** Look at one item's choices and pass the item on. */
    method Pass<T>(item: Item<T>) returns (out: Item<T>)
      requires Valid()
      modifies this
      ensures Valid() && out == item && seen == old(seen) + ChoicesOf(item)
      ensures old(sent).Some? ==> sent == old(sent)
    {
      hide HandedOver, Text, Finishes;
      if item.choices.Some? {
        var choices := item.choices.value;
        assert old(seen) + choices[..0] == old(seen);
        for i := 0 to |choices|
          invariant Valid() && seen == old(seen) + choices[..i]
          invariant old(sent).Some? ==> sent == old(sent)
        {
          var choice := choices[i];
          assert choices[..i + 1] == choices[..i] + [choice];
          assert old(seen) + choices[..i] + [choice] == old(seen) + choices[..i + 1];
          TextSnoc(seen, choice);
          FinishesSnoc(seen, choice);
          HandOver(seen, choice, sent);
          SentMeansFinished(seen, sent);
          if choice.text.Some? { accumulated := accumulated + choice.text.value; }
          if choice.finished && open {
            open, sent := false, Some(accumulated);
          }
          seen := seen + [choice];
        }
        assert choices[..|choices|] == choices;
      } else {
        assert seen + [] == seen;
      }
      out := item;
    }
  }

  lemma SentMeansFinished(choices: seq<Choice>, sent: Option<string>)
    requires HandedOver(choices, sent)
    ensures sent.Some? <==> Finishes(choices)
  {
  }

  /** A client stream, or as much of it as the client reads: with the hint it comes out unchanged and
      its text is handed over exactly once it has finished; without the hint nothing is collected. */
  method WrapStream<T>(items: seq<Item<T>>, enabled: bool) returns (out: seq<Item<T>>, sent: Option<string>)
    ensures out == items
    ensures !enabled ==> sent == None
    ensures enabled ==> HandedOver(AllChoices(items), sent)
  {
    if !enabled { return items, None; }
    var tap := new Tap();
    out := [];
    for i := 0 to |items|
      invariant tap.Valid() && fresh(tap) && out == items[..i] && tap.seen == AllChoices(items[..i])
    {
      assert items[..i + 1][..i] == items[..i];
      var item := tap.Pass(items[i]);
      out := out + [item];
    }
    assert items[..|items|] == items;
    sent := tap.sent;
  }

  /** Reading on never changes what was handed over. */
  lemma {:induction false} HandedOverOnce(choices: seq<Choice>, more: seq<Choice>)
    requires Finishes(choices)
    ensures Finishes(choices + more) && Turn(choices + more) == Turn(choices)
    decreases |more|
  {
    if more == [] {
      assert choices + more == choices;
    } else {
      var init, last := more[..|more| - 1], more[|more| - 1];
      HandedOverOnce(choices, init);
      assert choices + more == choices + init + [last];
      assert (choices + more)[..|choices + more| - 1] == choices + init;
      FinishesSnoc(choices + init, last);
    }
  }
}
