/** The Payment Scheme Template document's save-time validation: scheme codes
    are unique inside a template and the milestone percentages add up to at
    most 100. */
module PaymentSchemeTemplateDoc {
  import opened Wrappers
  import opened Frappe
  import opened Records

  /** Why a template is refused. */
  datatype TemplateError = DuplicateCode(code: Option<string>) | TotalExceeds(total: real)

  /** The percentage total, a blank percentage counting as 0. */
  function Total(rows: seq<TemplateRow>): (t: real)
    ensures (forall i :: 0 <= i < |rows| ==> Flt(rows[i].percentage) >= 0.0) ==> t >= 0.0
  {
    if rows == [] then 0.0 else Total(rows[..|rows| - 1]) + Flt(rows[|rows| - 1].percentage)
  }

  function Seen(rows: seq<TemplateRow>): set<Option<string>>
  {
    set r | r in rows :: r.schemeCode
  }

  predicate DistinctCodes(rows: seq<TemplateRow>)
  {
    forall i, j :: 0 <= i < j < |rows| ==> rows[i].schemeCode != rows[j].schemeCode
  }

  /** Row `j` is the first row that repeats an earlier code. */
  predicate FirstRepeat(rows: seq<TemplateRow>, j: int)
  {
    0 <= j < |rows| && DistinctCodes(rows[..j]) && rows[j].schemeCode in Seen(rows[..j])
  }

  lemma SeenAppend(rows: seq<TemplateRow>, r: TemplateRow)
    ensures Seen(rows + [r]) == Seen(rows) + {r.schemeCode}
  {
    assert forall x :: x in rows + [r] <==> x in rows || x == r;
  }

  /** A prefix with distinct codes stays distinct exactly when the next code
      is new. */
  lemma DistinctExtend(rows: seq<TemplateRow>, i: int)
    requires 0 <= i < |rows| && DistinctCodes(rows[..i])
    ensures DistinctCodes(rows[..i + 1]) <==> rows[i].schemeCode !in Seen(rows[..i])
  {
    var p := rows[..i + 1];
    assert p == rows[..i] + [rows[i]];
    if rows[i].schemeCode in Seen(rows[..i]) {
      var k :| 0 <= k < i && rows[..i][k].schemeCode == rows[i].schemeCode;
      assert p[k].schemeCode == p[i].schemeCode;
    }
  }

  /** `validate`: the scan stops at the first repeated code; only a template
      without repeats reaches the total check. */
  method Validate(rows: seq<TemplateRow>) returns (r: Outcome<TemplateError>)
    ensures r.Pass? <==> DistinctCodes(rows) && Total(rows) <= 100.0
    ensures !DistinctCodes(rows) ==> r.Fail? && r.error.DuplicateCode?
    ensures r.Fail? && r.error.DuplicateCode? ==>
              exists j :: FirstRepeat(rows, j) && rows[j].schemeCode == r.error.code
    ensures r.Fail? && r.error.TotalExceeds? ==>
              DistinctCodes(rows) && r.error.total == Total(rows) && Total(rows) > 100.0
  {
    var seen: set<Option<string>> := {};
    var total := 0.0;
    var i := 0;
    while i < |rows|
      invariant 0 <= i <= |rows|
      invariant seen == Seen(rows[..i])
      invariant DistinctCodes(rows[..i])
      invariant total == Total(rows[..i])
    {
      var row := rows[i];
      DistinctExtend(rows, i);
      if row.schemeCode in seen {
        assert FirstRepeat(rows, i);
        assert !DistinctCodes(rows) by {
          var k :| 0 <= k < i && rows[..i][k].schemeCode == row.schemeCode;
          assert rows[k].schemeCode == rows[i].schemeCode;
        }
        return Fail(DuplicateCode(row.schemeCode));
      }
      assert rows[..i + 1] == rows[..i] + [row];
      SeenAppend(rows[..i], row);
      seen := seen + {row.schemeCode};
      total := total + Flt(row.percentage);
      i := i + 1;
    }
    assert rows[..i] == rows;
    if total > 100.0 {
      return Fail(TotalExceeds(total));
    }
    return Pass;
  }

  /** A row with a blank percentage adds nothing to the total. */
  lemma BlankPercentageCountsZero(rows: seq<TemplateRow>, row: TemplateRow)
    requires row.percentage.None?
    ensures Total(rows + [row]) == Total(rows)
  {
    assert (rows + [row])[..|rows|] == rows;
  }

  /** The total does not depend on where the rows sit. */
  lemma {:induction false} TotalAppend(a: seq<TemplateRow>, b: seq<TemplateRow>)
    ensures Total(a + b) == Total(a) + Total(b)
    decreases |b|
  {
    if b != [] {
      var b' := b[..|b| - 1];
      assert (a + b)[..|a + b| - 1] == a + b';
      assert (a + b)[|a + b| - 1] == b[|b| - 1];
      TotalAppend(a, b');
    } else {
      assert a + b == a;
    }
  }
}
