/**
 * The error-accumulating validation both route files use: every check runs,
 * none stops the others, and each failing check appends its own message to
 * a list in a fixed order. A validator's run on one body is a table of
 * verdicts, one per check in that order; `Collect` is the list it reports.
 */
module Validation {

  /** The outcome of one check: whether it failed, and the message it pushes if so. */
  datatype Verdict = Verdict(failed: bool, message: string)

  /** What one check adds to the list. */
  function Complaint(v: Verdict): seq<string> {
    if v.failed then [v.message] else []
  }

  /** The messages of the failed checks, in table order; at most one per check. */
  function Collect(table: seq<Verdict>): (r: seq<string>)
    ensures |r| <= |table|
  {
    if table == [] then [] else Collect(table[..|table| - 1]) + Complaint(table[|table| - 1])
  }

  /** No two checks of the table share a message. */
  predicate DistinctMessages(table: seq<Verdict>) {
    forall i, j :: 0 <= i < j < |table| ==> table[i].message != table[j].message
  }

  /** Running one more check appends its complaint and changes nothing before it. */
  lemma CollectStep(table: seq<Verdict>, i: int)
    requires 0 <= i < |table|
    ensures Collect(table[..i + 1]) == Collect(table[..i]) + Complaint(table[i])
  {
    assert table[..i + 1][..i] == table[..i];
  }

  /** One check of a validator: its message is pushed when it failed. */
  method Report(errors: seq<string>, failed: bool, message: string) returns (r: seq<string>)
    ensures r == errors + (if failed then [message] else [])
  {
    r := errors;
    if failed {
      r := r + [message];
    }
  }

  /** The list for a five-entry table, entry by entry. */
  lemma CollectFive(t: seq<Verdict>)
    requires |t| == 5
    ensures Collect(t) == [] + Complaint(t[0]) + Complaint(t[1]) + Complaint(t[2]) + Complaint(t[3]) + Complaint(t[4])
  {
    CollectStep(t, 0);
    CollectStep(t, 1);
    CollectStep(t, 2);
    CollectStep(t, 3);
    CollectStep(t, 4);
    assert t[..5] == t;
  }

  /** The list for an eight-entry table, entry by entry. */
  lemma CollectEight(t: seq<Verdict>)
    requires |t| == 8
    ensures Collect(t) == [] + Complaint(t[0]) + Complaint(t[1]) + Complaint(t[2]) + Complaint(t[3])
                             + Complaint(t[4]) + Complaint(t[5]) + Complaint(t[6]) + Complaint(t[7])
  {
    CollectStep(t, 0);
    CollectStep(t, 1);
    CollectStep(t, 2);
    CollectStep(t, 3);
    CollectStep(t, 4);
    CollectStep(t, 5);
    CollectStep(t, 6);
    CollectStep(t, 7);
    assert t[..8] == t;
  }

  /** The list for a table is the list for its first `i` checks followed by the list for the rest. */
  lemma {:induction false} CollectSplit(table: seq<Verdict>, i: int)
    requires 0 <= i <= |table|
    ensures Collect(table) == Collect(table[..i]) + Collect(table[i..])
    decreases |table|
  {
    if i == |table| {
      assert table[..i] == table;
      assert table[i..] == [];
    } else {
      var n := |table| - 1;
      var init, rest := table[..n], table[i..];
      var front, middle, last := table[..i], init[i..], Complaint(table[n]);
      assert Collect(table) == Collect(init) + last;
      CollectSplit(init, i);
      assert init[..i] == front;
      assert Collect(init) == Collect(front) + Collect(middle);
      assert rest[..|rest| - 1] == middle;
      assert rest[|rest| - 1] == table[n];
      assert Collect(rest) == Collect(middle) + last;
      AppendAssociative(Collect(front), Collect(middle), last);
    }
  }

  /** Regrouping a concatenation; stated apart so that the step above stays small. */
  lemma AppendAssociative(a: seq<string>, b: seq<string>, c: seq<string>)
    ensures (a + b) + c == a + (b + c)
  {
  }

  /** The list is empty exactly when no check of the table failed. */
  lemma {:induction false} CollectEmpty(table: seq<Verdict>)
    ensures Collect(table) == [] <==> forall i :: 0 <= i < |table| ==> !table[i].failed
    decreases |table|
  {
    if table != [] {
      var n := |table| - 1;
      var init := table[..n];
      CollectEmpty(init);
      assert Collect(table) == Collect(init) + Complaint(table[n]);
      assert |Collect(table)| == |Collect(init)| + |Complaint(table[n])|;
      if Collect(table) == [] {
        forall i | 0 <= i < |table|
          ensures !table[i].failed
        {
          if i < n {
            assert init[i] == table[i];
          }
        }
      } else if Collect(init) != [] {
        var i :| 0 <= i < n && init[i].failed;
        assert table[i] == init[i];
      }
    }
  }

  /**
   * Every entry of the list is the message of a failed check of the table,
   * standing at the index equal to the number of failed checks before it.
   */
  lemma {:induction false} CollectSound(table: seq<Verdict>, p: int)
    requires 0 <= p < |Collect(table)|
    ensures exists i :: && 0 <= i < |table| && table[i].failed
                        && p == |Collect(table[..i])|
                        && Collect(table)[p] == table[i].message
    decreases |table|
  {
    var n := |table| - 1;
    var before := Collect(table[..n]);
    if p < |before| {
      CollectSound(table[..n], p);
      var i :| && 0 <= i < n && table[..n][i].failed
               && p == |Collect(table[..n][..i])|
               && before[p] == table[..n][i].message;
      assert table[..n][i] == table[i];
      assert table[..n][..i] == table[..i];
    } else {
      assert Collect(table)[p] == table[n].message;
    }
  }

  /** The message of a failed check stands at the index equal to the number of failed checks before it. */
  lemma CollectAt(table: seq<Verdict>, i: int)
    requires 0 <= i < |table| && table[i].failed
    ensures var p := |Collect(table[..i])|;
      p < |Collect(table)| && Collect(table)[p] == table[i].message
  {
    CollectSplit(table, i + 1);
    CollectStep(table, i);
  }

  /** Of two failed checks, the earlier one's message comes first in the list. */
  lemma CollectOrdered(table: seq<Verdict>, i: int, j: int)
    requires 0 <= i < j < |table| && table[i].failed && table[j].failed
    ensures var r, p, q := Collect(table), |Collect(table[..i])|, |Collect(table[..j])|;
      p < q < |r| && r[p] == table[i].message && r[q] == table[j].message
  {
    CollectAt(table, i);
    CollectAt(table, j);
    CollectSplit(table[..j], i + 1);
    assert table[..j][..i + 1] == table[..i + 1];
    CollectStep(table, i);
  }

  /** With distinct messages, a check's message is in the list exactly when that check failed. */
  lemma CollectContains(table: seq<Verdict>, i: int)
    requires DistinctMessages(table)
    requires 0 <= i < |table|
    ensures table[i].message in Collect(table) <==> table[i].failed
  {
    var r := Collect(table);
    if table[i].failed {
      CollectAt(table, i);
    } else {
      forall p | 0 <= p < |r| ensures r[p] != table[i].message {
        CollectSound(table, p);
      }
    }
  }

  /** With distinct messages, no message is reported twice. */
  lemma CollectNoDuplicates(table: seq<Verdict>, p: int, q: int)
    requires DistinctMessages(table)
    requires 0 <= p < q < |Collect(table)|
    ensures Collect(table)[p] != Collect(table)[q]
  {
    CollectSound(table, p);
    CollectSound(table, q);
  }

  /**
   * With distinct messages, a check's message is in the list exactly when
   * that check failed, and no message is there twice.
   */
  lemma CollectExact(table: seq<Verdict>, i: int)
    requires DistinctMessages(table)
    requires 0 <= i < |table|
    ensures table[i].message in Collect(table) <==> table[i].failed
    ensures forall p, q :: 0 <= p < q < |Collect(table)| ==> Collect(table)[p] != Collect(table)[q]
  {
    CollectContains(table, i);
    forall p, q | 0 <= p < q < |Collect(table)| ensures Collect(table)[p] != Collect(table)[q] {
      CollectNoDuplicates(table, p, q);
    }
  }
}
