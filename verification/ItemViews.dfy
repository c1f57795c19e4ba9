/**
 Item lists up to numbering. The bridge numbers text items (and, in batch, user messages)
 with a counter; a view renumbers them in order and may drop the user messages.
 */
module ItemViews {
  import opened Ids
  import opened AcpProtocol

  predicate IsText(item: Item) {
    item.AgentMessage? || item.Reasoning?
  }

  /** How many items carry a number; user messages count if they are kept. */
  function Count(users: bool, items: seq<Item>): nat {
    if items == [] then 0
    else Count(users, items[..|items| - 1])
         + if IsText(items[|items| - 1]) || (users && items[|items| - 1].UserMessage?) then 1 else 0
  }

  /** A numbered item under another number. */
  function Renumbered(item: Item, n: nat): Item {
    match item
    case AgentMessage(_, text) => AgentMessage(AgentId(n), text)
    case Reasoning(_, text) => Reasoning(ReasoningId(n), text)
    case UserMessage(_, text) => UserMessage(UserId(n), text)
    case _ => item
  }

  /** The items numbered 0, 1, 2, ... in order, with or without the user messages. */
  function View(users: bool, items: seq<Item>): seq<Item> {
    if items == [] then []
    else
      var front, last := items[..|items| - 1], items[|items| - 1];
      if last.UserMessage? && !users then View(users, front)
      else View(users, front) + [Renumbered(last, Count(users, front))]
  }

  function UserCount(items: seq<Item>): nat {
    if items == [] then 0
    else UserCount(items[..|items| - 1]) + if items[|items| - 1].UserMessage? then 1 else 0
  }

  lemma ViewAppend(users: bool, items: seq<Item>, item: Item)
    ensures View(users, items + [item])
            == if item.UserMessage? && !users then View(users, items)
               else View(users, items) + [Renumbered(item, Count(users, items))]
    ensures Count(users, items + [item])
            == Count(users, items) + if IsText(item) || (users && item.UserMessage?) then 1 else 0
    ensures UserCount(items + [item]) == UserCount(items) + if item.UserMessage? then 1 else 0
  {
    assert (items + [item])[..|items|] == items;
  }

  /** A view keeps the count it numbers by, and loses only the user messages it drops. */
  lemma {:induction false} ViewSize(users: bool, items: seq<Item>)
    ensures |View(users, items)| == |items| - if users then 0 else UserCount(items)
    ensures Count(users, View(users, items)) == Count(users, items)
  {
    hide Renumbered;
    if items != [] {
      var front, last := items[..|items| - 1], items[|items| - 1];
      ViewSize(users, front);
      RenumberedKind(last, Count(users, front));
      ViewAppend(users, View(users, front), Renumbered(last, Count(users, front)));
    }
  }

  lemma RenumberedKind(item: Item, n: nat)
    ensures var r := Renumbered(item, n);
            && (IsText(r) <==> IsText(item)) && (r.UserMessage? <==> item.UserMessage?)
            && (IsToolItem(item) ==> r == item)
            && (r.id.ToolId? ==> r.id == item.id)
  {
  }

  /** Only tool items have tool ids. */
  ghost predicate ShapedIds(items: seq<Item>) {
    forall i :: 0 <= i < |items| ==> (items[i].id.ToolId? <==> IsToolItem(items[i]))
  }

  lemma {:induction false} LastPosInView(users: bool, items: seq<Item>, c: string)
    requires ShapedIds(items)
    ensures LastPos(items, ToolId(c)) >= 0 <==> LastPos(View(users, items), ToolId(c)) >= 0
  {
    if items != [] {
      var front, last := items[..|items| - 1], items[|items| - 1];
      LastPosInView(users, front, c);
      assert front + [last] == items;
      LastPosAppend(front, last, ToolId(c));
      LastPosAppend(View(users, front), Renumbered(last, Count(users, front)), ToolId(c));
    }
  }

  lemma ReplaceInFront(front: seq<Item>, last: Item, id: ItemId, item: Item)
    requires last.id != id && LastPos(front, id) >= 0
    ensures ReplaceItem(front + [last], id, item) == ReplaceItem(front, id, item) + [last]
  {
    LastPosAppend(front, last, id);
  }

  /** Rewriting a call's slot and renumbering commute. */
  lemma {:induction false} ReplaceInView(users: bool, items: seq<Item>, c: string, item: Item)
    requires ShapedIds(items) && IsToolItem(item) && item.id == ToolId(c)
    ensures View(users, ReplaceItem(items, ToolId(c), item)) == ReplaceItem(View(users, items), ToolId(c), item)
    ensures Count(users, ReplaceItem(items, ToolId(c), item)) == Count(users, items)
    ensures UserCount(ReplaceItem(items, ToolId(c), item)) == UserCount(items)
    ensures ShapedIds(ReplaceItem(items, ToolId(c), item))
  {
    hide View, Count, LastPos, UserCount;
    LastPosInView(users, items, c);
    if LastPos(items, ToolId(c)) < 0 {
      ViewAppend(users, items, item);
    } else {
      var front, last := items[..|items| - 1], items[|items| - 1];
      assert front + [last] == items;
      if last.id == ToolId(c) {
        ReplaceLastInView(users, front, last, c, item);
      } else {
        LastPosAppend(front, last, ToolId(c));
        ReplaceInView(users, front, c, item);
        LastPosInView(users, front, c);
        ReplaceBeforeLast(users, front, last, c, item);
      }
    }
  }

  lemma ReplaceLastInView(users: bool, front: seq<Item>, last: Item, c: string, item: Item)
    requires IsToolItem(last) && IsToolItem(item) && last.id == item.id == ToolId(c)
    ensures View(users, ReplaceItem(front + [last], ToolId(c), item))
            == ReplaceItem(View(users, front + [last]), ToolId(c), item)
    ensures Count(users, ReplaceItem(front + [last], ToolId(c), item)) == Count(users, front + [last])
    ensures UserCount(ReplaceItem(front + [last], ToolId(c), item)) == UserCount(front + [last])
  {
    hide View, Count, LastPos, UserCount;
    LastPosAppend(front, last, ToolId(c));
    LastPosAppend(View(users, front), last, ToolId(c));
    assert (front + [last])[|front| := item] == front + [item];
    assert (View(users, front) + [last])[|View(users, front)| := item] == View(users, front) + [item];
    ViewAppend(users, front, last);
    ViewAppend(users, front, item);
  }

  lemma ReplaceBeforeLast(users: bool, front: seq<Item>, last: Item, c: string, item: Item)
    requires last.id != ToolId(c) && LastPos(front, ToolId(c)) >= 0 && LastPos(View(users, front), ToolId(c)) >= 0
    requires View(users, ReplaceItem(front, ToolId(c), item)) == ReplaceItem(View(users, front), ToolId(c), item)
    requires Count(users, ReplaceItem(front, ToolId(c), item)) == Count(users, front)
    requires UserCount(ReplaceItem(front, ToolId(c), item)) == UserCount(front)
    ensures View(users, ReplaceItem(front + [last], ToolId(c), item))
            == ReplaceItem(View(users, front + [last]), ToolId(c), item)
    ensures Count(users, ReplaceItem(front + [last], ToolId(c), item)) == Count(users, front + [last])
    ensures UserCount(ReplaceItem(front + [last], ToolId(c), item)) == UserCount(front + [last])
  {
    hide View, Count, LastPos, ReplaceItem, Renumbered, UserCount;
    ReplaceInFront(front, last, ToolId(c), item);
    ViewAppend(users, front, last);
    ViewAppend(users, ReplaceItem(front, ToolId(c), item), last);
    RenumberedKind(last, Count(users, front));
    ReplaceInFront(View(users, front), Renumbered(last, Count(users, front)), ToolId(c), item);
  }

  /** Without user messages, items numbered in order are their own view either way. */
  lemma {:induction false} ViewOfUserless(items: seq<Item>)
    requires View(true, items) == items && UserCount(items) == 0
    ensures View(false, items) == items && Count(false, items) == Count(true, items)
  {
    if items != [] {
      var front, last := items[..|items| - 1], items[|items| - 1];
      assert front + [last] == items;
      ViewAppend(true, front, last);
      ViewSize(true, front);
      ViewOfUserless(front);
    }
  }
}
