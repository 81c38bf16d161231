/** Splitting a transaction (src/components/transactions/SplitTransactionDialog.tsx):
    the form's lines, the balance check against the parent's amount, the
    line editing operations, and `handleSplit`, which marks the parent as
    split and creates one child row per line with a non-zero amount. */
module SplitDialog {
  import opened Common
  import opened Numbers
  import opened Ledger

  /** One line of the form; `amount` is the text typed into the field. */
  datatype SplitLine = SplitLine(name: string, amount: string, categoryId: string)

  function EmptyLine(): SplitLine
  {
    SplitLine("", "", "")
  }

  /** The lines the dialog starts with: the lines it is handed, or the
      parent's name with its absolute amount followed by an empty line. */
  function InitialLines(parent: Transaction, initial: seq<SplitLine>): seq<SplitLine>
  {
    if |initial| > 0 then initial
    else [SplitLine(parent.name, Render(Abs(parent.amount)), ""), EmptyLine()]
  }

  /** `parseFloat(l.amount) || 0`: text that does not parse counts as 0. */
  function LineValue(l: SplitLine): int
  {
    match ParseNumber(l.amount)
    case None => 0
    case Some(v) => v
  }

  /** `splitTotal`: the sum of the line values. */
  function SplitTotal(lines: seq<SplitLine>): int
  {
    if lines == [] then 0 else SplitTotal(lines[..|lines| - 1]) + LineValue(lines[|lines| - 1])
  }

  /** `isBalanced`: the lines add up to the parent's absolute amount within
      one cent (`Math.abs(remaining) < 0.01`). */
  predicate IsBalanced(parent: Transaction, lines: seq<SplitLine>)
  {
    Abs(Abs(parent.amount) - SplitTotal(lines)) < 1
  }

  lemma SplitTotalAppend(lines: seq<SplitLine>, l: SplitLine)
    ensures SplitTotal(lines + [l]) == SplitTotal(lines) + LineValue(l)
  {
    assert (lines + [l])[..|lines|] == lines;
  }

  /** The empty amount counts as 0. */
  lemma EmptyAmountIsZero()
    ensures LineValue(EmptyLine()) == 0
  {
    assert TrimStart("") == "";
    assert DigitRun("") == 0;
  }

  /** The default lines are two, and already balanced: the first line reads
      back as the parent's absolute amount. */
  lemma InitialLinesBalanced(parent: Transaction)
    ensures |InitialLines(parent, [])| == 2
    ensures IsBalanced(parent, InitialLines(parent, []))
  {
    var first := SplitLine(parent.name, Render(Abs(parent.amount)), "");
    ParseRender(Abs(parent.amount));
    EmptyAmountIsZero();
    SplitTotalAppend([first], EmptyLine());
    SplitTotalAppend([], first);
    assert [first] + [EmptyLine()] == InitialLines(parent, []);
  }

  // ---------------------------------------------------------------------
  // Editing the lines

  /** `addLine`. */
  function AddLine(lines: seq<SplitLine>): seq<SplitLine>
  {
    lines + [EmptyLine()]
  }

  /** Adding a line keeps every line and the total: the new line is empty. */
  lemma AddLineKeepsTotal(lines: seq<SplitLine>)
    ensures |AddLine(lines)| == |lines| + 1 && AddLine(lines)[..|lines|] == lines
    ensures SplitTotal(AddLine(lines)) == SplitTotal(lines)
  {
    SplitTotalAppend(lines, EmptyLine());
    EmptyAmountIsZero();
  }

  /** `prev.filter((_, i) => i !== index)`. */
  function Without(lines: seq<SplitLine>, index: nat): seq<SplitLine>
  {
    if lines == [] then []
    else Without(lines[..|lines| - 1], index) + (if |lines| - 1 == index then [] else [lines[|lines| - 1]])
  }

  lemma {:induction false} WithoutOutside(lines: seq<SplitLine>, index: nat)
    requires index >= |lines|
    ensures Without(lines, index) == lines
  {
    if lines != [] {
      WithoutOutside(lines[..|lines| - 1], index);
    }
  }

  lemma {:induction false} WithoutInside(lines: seq<SplitLine>, index: nat)
    requires index < |lines|
    ensures Without(lines, index) == lines[..index] + lines[index + 1..]
  {
    var init := lines[..|lines| - 1];
    if index == |lines| - 1 {
      WithoutOutside(init, index);
    } else {
      WithoutInside(init, index);
      assert init[..index] == lines[..index];
      assert init[index + 1..] + [lines[|lines| - 1]] == lines[index + 1..];
    }
  }

  /** `removeLine`: nothing when there are two lines or fewer. */
  function RemoveLine(lines: seq<SplitLine>, index: nat): seq<SplitLine>
  {
    if |lines| <= 2 then lines else Without(lines, index)
  }

  /** Removing keeps at least two lines, and drops exactly the indexed line
      (nothing when the index names no line). */
  lemma RemoveLineDrops(lines: seq<SplitLine>, index: nat)
    ensures |lines| <= 2 ==> RemoveLine(lines, index) == lines
    ensures |lines| > 2 && index < |lines| ==> RemoveLine(lines, index) == lines[..index] + lines[index + 1..]
    ensures |lines| > 2 && index >= |lines| ==> RemoveLine(lines, index) == lines
    ensures |lines| >= 2 ==> |RemoveLine(lines, index)| >= 2
  {
    if |lines| > 2 {
      if index < |lines| {
        WithoutInside(lines, index);
      } else {
        WithoutOutside(lines, index);
      }
    }
  }

  /** The three fields of a line. */
  datatype Field = NameField | AmountField | CategoryField

  function SetField(l: SplitLine, f: Field, v: string): SplitLine
  {
    match f
    case NameField => l.(name := v)
    case AmountField => l.(amount := v)
    case CategoryField => l.(categoryId := v)
  }

  /** `updateLine`: the indexed line gets the value in the named field. */
  function UpdateLine(lines: seq<SplitLine>, index: nat, f: Field, v: string): (r: seq<SplitLine>)
    ensures |r| == |lines|
    ensures forall i :: 0 <= i < |lines| && i != index ==> r[i] == lines[i]
    ensures index < |lines| ==> r[index] == SetField(lines[index], f, v)
  {
    seq(|lines|, i requires 0 <= i < |lines| => if i == index then SetField(lines[i], f, v) else lines[i])
  }

  /** An update changes the named field only. */
  lemma SetFieldOnlyNamed(l: SplitLine, f: Field, v: string)
    ensures var r := SetField(l, f, v);
      && (r.name == if f == NameField then v else l.name)
      && (r.amount == if f == AmountField then v else l.amount)
      && (r.categoryId == if f == CategoryField then v else l.categoryId)
  {
  }

  // ---------------------------------------------------------------------
  // handleSplit

  /** The database calls `handleSplit` issues, in order. */
  datatype Mutation = MarkSplit(id: string) | Create(row: Transaction)

  /** A line creates a child when its amount parses and is not zero. */
  predicate Creates(l: SplitLine)
  {
    ParseNumber(l.amount).Some? && ParseNumber(l.amount).value != 0
  }

  /** `transaction.amount >= 0 ? 1 : -1`. */
  function Sign(amount: int): int
  {
    if amount >= 0 then 1 else -1
  }

  /** The child a line creates. */
  function Child(parentId: string, parent: Transaction, household: string, l: SplitLine): Transaction
    requires Creates(l)
  {
    NewTransaction(household, if l.name == [] then parent.name else l.name,
                   ParseNumber(l.amount).value * Sign(parent.amount), parent.date, parent.source)
      .(category_id := if l.categoryId == [] then None else Some(l.categoryId),
        account_id := parent.account_id,
        parent_transaction_id := Some(parentId),
        is_split := false)
  }

  /** The children of the lines, in line order. */
  function Children(parentId: string, parent: Transaction, household: string, lines: seq<SplitLine>): seq<Transaction>
  {
    if lines == [] then []
    else
      var l := lines[|lines| - 1];
      Children(parentId, parent, household, lines[..|lines| - 1]) + LineChild(parentId, parent, household, l)
  }

  /** The child of one line, if it creates one. */
  function LineChild(parentId: string, parent: Transaction, household: string, l: SplitLine): (r: seq<Transaction>)
    ensures Creates(l) ==> r == [Child(parentId, parent, household, l)]
    ensures !Creates(l) ==> r == []
  {
    if Creates(l) then [Child(parentId, parent, household, l)] else []
  }

  function Creations(rows: seq<Transaction>): (r: seq<Mutation>)
    ensures |r| == |rows| && forall i :: 0 <= i < |rows| ==> r[i] == Create(rows[i])
  {
    seq(|rows|, i requires 0 <= i < |rows| => Create(rows[i]))
  }

  lemma CreationsAppend(rows: seq<Transaction>, more: seq<Transaction>)
    ensures Creations(rows + more) == Creations(rows) + Creations(more)
  {
  }

  /** One more line adds the creation of its child, if any. */
  lemma CreationsStep(parentId: string, parent: Transaction, household: string, lines: seq<SplitLine>, i: nat)
    requires i < |lines|
    ensures Creations(Children(parentId, parent, household, lines[..i + 1])) ==
      Creations(Children(parentId, parent, household, lines[..i])) + Creations(LineChild(parentId, parent, household, lines[i]))
  {
    assert lines[..i + 1][..i] == lines[..i];
    CreationsAppend(Children(parentId, parent, household, lines[..i]), LineChild(parentId, parent, household, lines[i]));
  }

  /** `handleSplit`: nothing unless the lines are balanced and a household
      is selected; otherwise the parent is marked split first, then one
      child is created per line with a non-zero amount. The calls are taken
      to succeed. */
  method HandleSplit(parentId: string, parent: Transaction, lines: seq<SplitLine>, household: Option<string>)
    returns (calls: seq<Mutation>)
    ensures !IsBalanced(parent, lines) || household.None? ==> calls == []
    ensures IsBalanced(parent, lines) && household.Some? ==>
      calls == [MarkSplit(parentId)] + Creations(Children(parentId, parent, household.value, lines))
  {
    if !IsBalanced(parent, lines) || household.None? {
      return [];
    }
    var hh := household.value;
    calls := [MarkSplit(parentId)];
    for i := 0 to |lines|
      invariant calls == [MarkSplit(parentId)] + Creations(Children(parentId, parent, hh, lines[..i]))
    {
      CreationsStep(parentId, parent, hh, lines, i);
      var created := CreateChild(parentId, parent, hh, lines[i]);
      AppendAssoc([MarkSplit(parentId)], Creations(Children(parentId, parent, hh, lines[..i])), created);
      calls := calls + created;
    }
    assert lines[..|lines|] == lines;
  }

  /** The body of the loop for one line: no call when the amount does not
      parse or is zero, otherwise the insert of the child. */
  method CreateChild(parentId: string, parent: Transaction, hh: string, line: SplitLine) returns (created: seq<Mutation>)
    ensures created == Creations(LineChild(parentId, parent, hh, line))
  {
    var amt := ParseNumber(line.amount);
    if amt.None? || amt.value == 0 {
      return [];
    }
    created := [Create(Child(parentId, parent, hh, line))];
  }

  // ---------------------------------------------------------------------
  // Properties of the children

  function AmountSum(rows: seq<Transaction>): int
  {
    if rows == [] then 0 else AmountSum(rows[..|rows| - 1]) + rows[|rows| - 1].amount
  }

  /** The children carry the line values with the parent's sign: their
      amounts add up to the lines' total, signed like the parent. */
  lemma {:induction false} ChildrenSum(parentId: string, parent: Transaction, household: string, lines: seq<SplitLine>)
    ensures AmountSum(Children(parentId, parent, household, lines)) == Sign(parent.amount) * SplitTotal(lines)
  {
    if lines != [] {
      var init := lines[..|lines| - 1];
      var l := lines[|lines| - 1];
      var cs := Children(parentId, parent, household, init);
      ChildrenSum(parentId, parent, household, init);
      if Creates(l) {
        assert (cs + [Child(parentId, parent, household, l)])[..|cs|] == cs;
      } else {
        assert cs + [] == cs;
      }
    }
  }

  /** A balanced split's children add up to the parent's amount within a
      cent. */
  lemma BalancedChildrenMatchParent(parentId: string, parent: Transaction, household: string, lines: seq<SplitLine>)
    requires IsBalanced(parent, lines)
    ensures Abs(parent.amount - AmountSum(Children(parentId, parent, household, lines))) < 1
  {
    ChildrenSum(parentId, parent, household, lines);
  }

  /** Every child belongs to the parent: its id as parent, not itself
      split, the parent's date, account and source, the household, and a
      non-zero amount signed like the parent's. */
  lemma {:induction false} ChildrenOfParent(parentId: string, parent: Transaction, household: string, lines: seq<SplitLine>)
    ensures |Children(parentId, parent, household, lines)| <= |lines|
    ensures forall c :: c in Children(parentId, parent, household, lines) ==>
      && c.parent_transaction_id == Some(parentId) && !c.is_split
      && c.date == parent.date && c.account_id == parent.account_id && c.source == parent.source
      && c.household_id == household && c.amount != 0
      && exists l :: l in lines && Creates(l) && c.amount == ParseNumber(l.amount).value * Sign(parent.amount)
  {
    if lines != [] {
      var init := lines[..|lines| - 1];
      ChildrenOfParent(parentId, parent, household, init);
      assert forall l :: l in init ==> l in lines;
    }
  }

  /** Lines whose amount is zero or not a number create no child. */
  lemma {:induction false} IdleLinesCreateNothing(parentId: string, parent: Transaction, household: string, lines: seq<SplitLine>)
    requires forall i :: 0 <= i < |lines| ==> !Creates(lines[i])
    ensures Children(parentId, parent, household, lines) == []
  {
    if lines != [] {
      IdleLinesCreateNothing(parentId, parent, household, lines[..|lines| - 1]);
    }
  }
}
