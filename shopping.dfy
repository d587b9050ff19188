/** The shopping checklist (js/ui/shopping.js): ticking an item, the text
    shared with a messenger, and the guard in front of list generation. */
module Shopping {
  import opened Wrappers
  import opened Database

  /** `list[catIdx] && list[catIdx].items[itemIdx]`: both indices name an item. */
  predicate ValidIndex(list: seq<ShoppingCategory>, catIdx: int, itemIdx: int) {
    0 <= catIdx < |list| && 0 <= itemIdx < |list[catIdx].items|
  }

  /** The list with one item's `checked` flag flipped; any other index
      leaves the list as it is. */
  function Toggled(list: seq<ShoppingCategory>, catIdx: int, itemIdx: int): (r: seq<ShoppingCategory>)
    ensures |r| == |list|
    ensures !ValidIndex(list, catIdx, itemIdx) ==> r == list
  {
    if ValidIndex(list, catIdx, itemIdx) then
      var cat := list[catIdx];
      var item := cat.items[itemIdx];
      list[catIdx := cat.(items := cat.items[itemIdx := item.(checked := !item.checked)])]
    else list
  }

  /** A valid toggle flips exactly that item's flag: its name and quantity,
      every other item and every category keep their values. */
  lemma ToggledSpec(list: seq<ShoppingCategory>, catIdx: int, itemIdx: int)
    requires ValidIndex(list, catIdx, itemIdx)
    ensures var r := Toggled(list, catIdx, itemIdx);
            var before := list[catIdx].items[itemIdx];
            r[catIdx].category == list[catIdx].category &&
            |r[catIdx].items| == |list[catIdx].items| &&
            r[catIdx].items[itemIdx] == before.(checked := !before.checked) &&
            (forall j :: 0 <= j < |list[catIdx].items| && j != itemIdx ==> r[catIdx].items[j] == list[catIdx].items[j]) &&
            (forall k :: 0 <= k < |list| && k != catIdx ==> r[k] == list[k])
  {
  }

  /** Ticking the same item twice restores the list. */
  lemma ToggleTwice(list: seq<ShoppingCategory>, catIdx: int, itemIdx: int)
    ensures Toggled(Toggled(list, catIdx, itemIdx), catIdx, itemIdx) == list
  {
    if ValidIndex(list, catIdx, itemIdx) {
      var once := Toggled(list, catIdx, itemIdx);
      assert ValidIndex(once, catIdx, itemIdx);
      var twice := Toggled(once, catIdx, itemIdx);
      assert twice[catIdx].items == list[catIdx].items;
      assert twice[catIdx] == list[catIdx];
    }
  }

  /** Toggles of two different items commute. */
  lemma ToggleCommute(list: seq<ShoppingCategory>, c1: int, i1: int, c2: int, i2: int)
    requires c1 != c2 || i1 != i2
    ensures Toggled(Toggled(list, c1, i1), c2, i2) == Toggled(Toggled(list, c2, i2), c1, i1)
  {
    var a := Toggled(Toggled(list, c1, i1), c2, i2);
    var b := Toggled(Toggled(list, c2, i2), c1, i1);
    assert |a| == |b|;
    forall k | 0 <= k < |a|
      ensures a[k] == b[k]
    {
      if k == c1 || k == c2 {
        assert a[k].items == b[k].items;
      }
    }
  }

  /** `toggleCheck(catIdx, itemIdx)`: with no list or an index that names
      no item nothing is written; otherwise the flipped list is stored. */
  method ToggleCheck(db: Ledger, catIdx: int, itemIdx: int)
    modifies db`shoppingList
    ensures old(db.shoppingList).None? || !ValidIndex(old(db.shoppingList).value, catIdx, itemIdx) ==>
              db.shoppingList == old(db.shoppingList)
    ensures old(db.shoppingList).Some? && ValidIndex(old(db.shoppingList).value, catIdx, itemIdx) ==>
              db.shoppingList == Some(Toggled(old(db.shoppingList).value, catIdx, itemIdx))
  {
    var list := db.shoppingList;
    if list.Some? && 0 <= catIdx < |list.value| && 0 <= itemIdx < |list.value[catIdx].items| {
      var l := list.value;
      var cat := l[catIdx];
      var items := cat.items;
      items := items[itemIdx := items[itemIdx].(checked := !items[itemIdx].checked)];
      l := l[catIdx := cat.(items := items)];
      db.shoppingList := Some(l);
    }
  }

  // ---------------------------------------------------------------------
  // Share text
  // ---------------------------------------------------------------------

  /** The check mark of a shared line. */
  function Mark(checked: bool): string {
    if checked then "\U{2705}" else "\U{2B1C}"
  }

  function ItemLine(item: ShoppingItem): string {
    Mark(item.checked) + " " + item.name + " (" + item.quantity + ")\n"
  }

  function ItemsText(items: seq<ShoppingItem>): string {
    if items == [] then "" else ItemsText(items[..|items| - 1]) + ItemLine(items[|items| - 1])
  }

  /** A category's block: its bold name, one line per item, then a blank line. */
  function CategoryText(cat: ShoppingCategory): string {
    "*" + cat.category + "*\n" + ItemsText(cat.items) + "\n"
  }

  function Body(list: seq<ShoppingCategory>): string {
    if list == [] then "" else Body(list[..|list| - 1]) + CategoryText(list[|list| - 1])
  }

  /** The shared text: the header, then the block of every category in order;
      a non-empty list's text ends with its last category's block. */
  function ShareText(header: string, list: seq<ShoppingCategory>): (t: string)
    ensures |t| >= |header| && t[..|header|] == header
    ensures t[|header|..] == Body(list)
    ensures list != [] ==>
              var last := CategoryText(list[|list| - 1]);
              |t| >= |header| + |last| && t[|t| - |last|..] == last
  {
    header + Body(list)
  }

  /** The text of a list is the texts of its parts, in order. */
  lemma {:induction false} BodyAppend(a: seq<ShoppingCategory>, b: seq<ShoppingCategory>)
    ensures Body(a + b) == Body(a) + Body(b)
  {
    if b == [] {
      assert a + b == a;
    } else {
      var init := b[..|b| - 1];
      var last := b[|b| - 1];
      assert (a + b)[..|a + b| - 1] == a + init;
      assert (a + b)[|a + b| - 1] == last;
      calc {
        Body(a + b);
        Body(a + init) + CategoryText(last);
        { BodyAppend(a, init); }
        (Body(a) + Body(init)) + CategoryText(last);
        Body(a) + (Body(init) + CategoryText(last));
      }
    }
  }

  /** Every block ends with the blank line, so a non-empty list's text ends
      with a newline. */
  lemma BodyEndsWithNewline(list: seq<ShoppingCategory>)
    requires list != []
    ensures var t := Body(list); |t| > 0 && t[|t| - 1] == '\n'
  {
  }

  /** The inner loop of `share`: one category's block. */
  method CategoryBlock(cat: ShoppingCategory) returns (block: string)
    ensures block == CategoryText(cat)
  {
    var lines := "";
    var i := 0;
    while i < |cat.items|
      invariant 0 <= i <= |cat.items|
      invariant lines == ItemsText(cat.items[..i])
    {
      assert cat.items[..i + 1][..i] == cat.items[..i];
      var item := cat.items[i];
      var check := if item.checked then "\U{2705}" else "\U{2B1C}";
      var line := check + " " + item.name + " (" + item.quantity + ")\n";
      assert line == ItemLine(item);
      lines := lines + line;
      i := i + 1;
    }
    assert cat.items[..|cat.items|] == cat.items;
    block := "*" + cat.category + "*\n" + lines + "\n";
  }

  /** The outer loop of `share`, appending the categories' blocks in order. */
  method ShareLoop(header: string, list: seq<ShoppingCategory>) returns (text: string)
    ensures text == ShareText(header, list)
  {
    text := header;
    var c := 0;
    while c < |list|
      invariant 0 <= c <= |list|
      invariant text == header + Body(list[..c])
    {
      assert list[..c + 1][..c] == list[..c];
      var block := CategoryBlock(list[c]);
      text := text + block;
      c := c + 1;
    }
    assert list[..|list|] == list;
  }

  /** `share`: nothing without a list; otherwise the text handed to the
      messenger link (`header` is the translated share header). */
  method Share(db: Ledger, header: string) returns (text: Option<string>)
    ensures db.shoppingList.None? <==> text.None?
    ensures db.shoppingList.Some? ==> text == Some(ShareText(header, db.shoppingList.value))
  {
    var list := db.shoppingList;
    if list.None? {
      return None;
    }
    var t := ShareLoop(header, list.value);
    text := Some(t);
  }

  /** What `generate` does with the stored plan. */
  datatype GenerateOutcome = NoPlan | Requested(plan: PlannerWeek)

  /** `generate`: without a stored plan it stops before any request;
      otherwise the plan goes to the list generator, which is not part of
      this model. */
  method Generate(db: Ledger) returns (o: GenerateOutcome)
    ensures o == NoPlan <==> db.planner.None?
    ensures db.planner.Some? ==> o == Requested(db.planner.value)
  {
    var plan := db.planner;
    if plan.None? {
      return NoPlan;
    }
    o := Requested(plan.value);
  }
}
