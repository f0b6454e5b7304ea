/** The Block form: choosing a Payment Scheme Template in the block's
    `available_payment_schemes` table adds the template's tower-specific
    milestones to the block's `tower_milestones`, so that their dates can be
    entered once per tower. */
module BlockForm {
  import opened Wrappers
  import opened Frappe
  import opened Records

  /** `(d.particulars || '').toLowerCase() === 'tower specific'` */
  predicate TowerSpecific(d: TemplateRow)
  {
    Lower(if d.particulars.Some? then d.particulars.value else "") == "tower specific"
  }

  /** `tower_milestones.some(m => m.scheme_code === code)` */
  predicate HasCode(ms: seq<TowerMilestone>, code: Option<string>)
  {
    exists m :: m in ms && m.schemeCode == code
  }

  /** The row `add_child` appends for a template row: code and milestone
      copied, date left for the user. */
  function NewMilestone(d: TemplateRow): (m: TowerMilestone)
    ensures m.milestoneDate.None?
  {
    TowerMilestone(d.schemeCode, d.milestone, None)
  }

  /** The `forEach` over the template rows, each seeing the rows appended
      before it; each template row adds at most one milestone. */
  function Merge(ms: seq<TowerMilestone>, details: seq<TemplateRow>): (r: seq<TowerMilestone>)
    ensures |ms| <= |r| <= |ms| + |details|
    decreases |details|
  {
    if details == [] then ms
    else
      var d := details[0];
      var next := if TowerSpecific(d) && !HasCode(ms, d.schemeCode) then ms + [NewMilestone(d)] else ms;
      Merge(next, details[1..])
  }

  lemma HasCodeAppend(ms: seq<TowerMilestone>, m: TowerMilestone, code: Option<string>)
    ensures HasCode(ms + [m], code) <==> HasCode(ms, code) || m.schemeCode == code
  {
    assert m in ms + [m];
    assert forall x :: x in ms + [m] <==> x in ms || x == m;
  }

  /** A longer table has every code of its prefix. */
  lemma HasCodePrefix(ms: seq<TowerMilestone>, ns: seq<TowerMilestone>, code: Option<string>)
    requires ms <= ns && HasCode(ms, code)
    ensures HasCode(ns, code)
  {
    var m :| m in ms && m.schemeCode == code;
    var k :| 0 <= k < |ms| && ms[k] == m;
    assert ns[k] == m;
  }

  /** The existing rows, dates included, are kept as they were and only
      appended to, so the table never loses a code (`HasCodePrefix`). */
  lemma {:induction false} MergeKeepsRows(ms: seq<TowerMilestone>, details: seq<TemplateRow>)
    ensures ms <= Merge(ms, details)
    decreases |details|
  {
    if details != [] {
      var d := details[0];
      var next := if TowerSpecific(d) && !HasCode(ms, d.schemeCode) then ms + [NewMilestone(d)] else ms;
      MergeKeepsRows(next, details[1..]);
    }
  }

  /** Every appended row is the new-milestone row of a tower-specific
      template row, with a code the table did not have. */
  lemma {:induction false} MergeAddsOnlyTowerRows(ms: seq<TowerMilestone>, details: seq<TemplateRow>, i: int)
    requires |ms| <= i < |Merge(ms, details)|
    ensures !HasCode(ms, Merge(ms, details)[i].schemeCode)
    ensures exists d :: d in details && TowerSpecific(d) && Merge(ms, details)[i] == NewMilestone(d)
    decreases |details|
  {
    var d := details[0];
    var next := if TowerSpecific(d) && !HasCode(ms, d.schemeCode) then ms + [NewMilestone(d)] else ms;
    var r := Merge(next, details[1..]);
    assert Merge(ms, details) == r;
    MergeKeepsRows(next, details[1..]);
    if next != ms && i == |ms| {
      assert r[i] == next[i] == NewMilestone(d);
    } else {
      MergeAddsOnlyTowerRows(next, details[1..], i);
      if next != ms {
        HasCodeAppend(ms, NewMilestone(d), r[i].schemeCode);
      }
      var e :| e in details[1..] && TowerSpecific(e) && r[i] == NewMilestone(e);
      assert e in details;
    }
  }

  /** After the merge every tower-specific code of the template is present. */
  lemma {:induction false} MergeCovers(ms: seq<TowerMilestone>, details: seq<TemplateRow>)
    ensures forall d :: d in details && TowerSpecific(d) ==> HasCode(Merge(ms, details), d.schemeCode)
    decreases |details|
  {
    if details != [] {
      var d := details[0];
      var next := if TowerSpecific(d) && !HasCode(ms, d.schemeCode) then ms + [NewMilestone(d)] else ms;
      assert Merge(ms, details) == Merge(next, details[1..]);
      MergeCovers(next, details[1..]);
      MergeKeepsRows(next, details[1..]);
      if TowerSpecific(d) {
        if next != ms {
          HasCodeAppend(ms, NewMilestone(d), d.schemeCode);
        }
        HasCodePrefix(next, Merge(next, details[1..]), d.schemeCode);
      }
      forall e | e in details && TowerSpecific(e)
        ensures HasCode(Merge(ms, details), e.schemeCode)
      {
        if e != d {
          assert e in details[1..];
        }
      }
    }
  }

  /** A template whose tower-specific codes are all present adds nothing. */
  lemma {:induction false} MergeNothingNew(ms: seq<TowerMilestone>, details: seq<TemplateRow>)
    requires forall d :: d in details && TowerSpecific(d) ==> HasCode(ms, d.schemeCode)
    ensures Merge(ms, details) == ms
    decreases |details|
  {
    if details != [] {
      assert details[0] in details;
      forall e | e in details[1..] && TowerSpecific(e)
        ensures HasCode(ms, e.schemeCode)
      {
        assert e in details;
      }
      MergeNothingNew(ms, details[1..]);
    }
  }

  /** Choosing the same template again, or any template after it, never
      duplicates a milestone: a second merge is a no-op. */
  lemma MergeIdempotent(ms: seq<TowerMilestone>, details: seq<TemplateRow>)
    ensures Merge(Merge(ms, details), details) == Merge(ms, details)
  {
    MergeCovers(ms, details);
    MergeNothingNew(Merge(ms, details), details);
  }

  /** A table without repeated codes keeps that property, even when the
      template itself repeats a tower-specific code. */
  predicate DistinctCodes(ms: seq<TowerMilestone>)
  {
    forall i, j :: 0 <= i < j < |ms| ==> ms[i].schemeCode != ms[j].schemeCode
  }

  lemma {:induction false} MergeKeepsDistinct(ms: seq<TowerMilestone>, details: seq<TemplateRow>)
    requires DistinctCodes(ms)
    ensures DistinctCodes(Merge(ms, details))
    decreases |details|
  {
    if details != [] {
      var d := details[0];
      if TowerSpecific(d) && !HasCode(ms, d.schemeCode) {
        var next := ms + [NewMilestone(d)];
        forall i, j | 0 <= i < j < |next|
          ensures next[i].schemeCode != next[j].schemeCode
        {
          if j == |ms| {
            assert ms[i] in ms;
          }
        }
        MergeKeepsDistinct(next, details[1..]);
      } else {
        MergeKeepsDistinct(ms, details[1..]);
      }
    }
  }

  /** Reference definition: the tower-specific rows of a template, in order. */
  function TowerRows(details: seq<TemplateRow>): (rs: seq<TemplateRow>)
    ensures forall d :: d in rs <==> d in details && TowerSpecific(d)
  {
    if details == [] then []
    else (if TowerSpecific(details[0]) then [details[0]] else []) + TowerRows(details[1..])
  }

  function NewMilestones(rs: seq<TemplateRow>): (ms: seq<TowerMilestone>)
    ensures |ms| == |rs|
    ensures forall i :: 0 <= i < |rs| ==> ms[i] == NewMilestone(rs[i])
  {
    if rs == [] then [] else [NewMilestone(rs[0])] + NewMilestones(rs[1..])
  }

  predicate DistinctTemplateCodes(rs: seq<TemplateRow>)
  {
    forall i, j :: 0 <= i < j < |rs| ==> rs[i].schemeCode != rs[j].schemeCode
  }

  /** Dropping the head of a list with distinct codes leaves distinct codes
      that all differ from the head's. */
  lemma DistinctTail(d: TemplateRow, rest: seq<TemplateRow>)
    requires DistinctTemplateCodes([d] + rest)
    ensures DistinctTemplateCodes(rest)
    ensures forall e :: e in rest ==> e.schemeCode != d.schemeCode
  {
    var all := [d] + rest;
    forall i, j | 0 <= i < j < |rest|
      ensures rest[i].schemeCode != rest[j].schemeCode
    {
      assert all[i + 1] == rest[i] && all[j + 1] == rest[j];
    }
    forall e | e in rest
      ensures e.schemeCode != d.schemeCode
    {
      var k :| 0 <= k < |rest| && rest[k] == e;
      assert all[0] == d && all[k + 1] == e;
    }
  }

  /** When the template's tower-specific codes are new and distinct, the
      merge appends exactly one row per tower-specific template row, in
      template order. */
  lemma {:induction false} MergeAppendsInOrder(ms: seq<TowerMilestone>, details: seq<TemplateRow>)
    requires DistinctTemplateCodes(TowerRows(details))
    requires forall d :: d in details && TowerSpecific(d) ==> !HasCode(ms, d.schemeCode)
    ensures Merge(ms, details) == ms + NewMilestones(TowerRows(details))
    decreases |details|
  {
    if details != [] {
      var d := details[0];
      var rest := TowerRows(details[1..]);
      if TowerSpecific(d) {
        assert TowerRows(details) == [d] + rest;
        var next := ms + [NewMilestone(d)];
        assert d in details;
        assert Merge(ms, details) == Merge(next, details[1..]);
        FreshAfterHead(ms, details);
        MergeAppendsInOrder(next, details[1..]);
        NewMilestonesCons(ms, d, rest);
      } else {
        assert TowerRows(details) == rest;
        assert Merge(ms, details) == Merge(ms, details[1..]);
        assert forall e :: e in details[1..] ==> e in details;
        MergeAppendsInOrder(ms, details[1..]);
      }
    }
  }

  lemma NewMilestonesCons(ms: seq<TowerMilestone>, d: TemplateRow, rest: seq<TemplateRow>)
    ensures ms + [NewMilestone(d)] + NewMilestones(rest) == ms + NewMilestones([d] + rest)
  {
    assert ([d] + rest)[1..] == rest;
  }

  /** The inductive step of `MergeAppendsInOrder` for a tower-specific head:
      the remaining rows' codes are still new once the head's is added. */
  lemma FreshAfterHead(ms: seq<TowerMilestone>, details: seq<TemplateRow>)
    requires details != [] && TowerSpecific(details[0])
    requires DistinctTemplateCodes(TowerRows(details))
    requires forall d :: d in details && TowerSpecific(d) ==> !HasCode(ms, d.schemeCode)
    ensures DistinctTemplateCodes(TowerRows(details[1..]))
    ensures forall e :: e in details[1..] && TowerSpecific(e) ==> !HasCode(ms + [NewMilestone(details[0])], e.schemeCode)
  {
    var d := details[0];
    var rest := TowerRows(details[1..]);
    assert TowerRows(details) == [d] + rest;
    DistinctTail(d, rest);
    forall e | e in details[1..] && TowerSpecific(e)
      ensures !HasCode(ms + [NewMilestone(d)], e.schemeCode)
    {
      assert e in details && e in rest;
      HasCodeAppend(ms, NewMilestone(d), e.schemeCode);
    }
  }

  class Block {
    var towerMilestones: seq<TowerMilestone>

    constructor(towerMilestones: seq<TowerMilestone>)
      ensures this.towerMilestones == towerMilestones
    {
      this.towerMilestones := towerMilestones;
    }

    /** The `payment_scheme_template` handler of a Block Payment Scheme row.
        A blank template, or one that cannot be fetched, changes nothing;
        otherwise its tower-specific rows are merged in template order. */
    method OnPaymentSchemeTemplate(template: Option<string>, templates: map<string, seq<TemplateRow>>)
      modifies this`towerMilestones
      ensures !Present(template) || template.value !in templates ==> towerMilestones == old(towerMilestones)
      ensures Present(template) && template.value in templates ==>
                towerMilestones == Merge(old(towerMilestones), templates[template.value])
    {
      if !Present(template) || template.value !in templates {
        return;
      }
      var details := templates[template.value];
      var i := 0;
      while i < |details|
        invariant 0 <= i <= |details|
        invariant Merge(towerMilestones, details[i..]) == Merge(old(towerMilestones), details)
      {
        var d := details[i];
        assert details[i..][0] == d && details[i..][1..] == details[i + 1..];
        if TowerSpecific(d) && !HasCode(towerMilestones, d.schemeCode) {
          towerMilestones := towerMilestones + [NewMilestone(d)];
        }
        i := i + 1;
      }
    }
  }
}
