/**
 * The Annex-C report screen: a fixed list of validated-invoice records, the number of
 * records, and three column totals. The tax period the screen lets one pick is never
 * used to select records, so it is not part of the model.
 */
module AnnexC {

  /** One line of the report. */
  datatype AnnexCRecord = AnnexCRecord(
    id: string,
    invoiceNumber: string,
    fbrNumber: string,
    date: string,
    buyerName: string,
    buyerStrn: string,
    province: string,
    taxableAmount: real,
    taxAmount: real,
    totalAmount: real)

  /** The records the screen lists. */
  const Records: seq<AnnexCRecord> := [
    AnnexCRecord("1", "INV-1771102188212", "FBR-U4J4N", "14 Feb 2026", "XYZ Textiles Ltd",
                 "32-00-5205-001-22", "Sindh", 125400.00, 22572.00, 147972.00),
    AnnexCRecord("2", "INV-1771105367748", "FBR-NWV7N", "16 Feb 2026", "Al-Hamid Fabrics",
                 "32-00-5208-012-34", "Punjab", 85200.00, 15336.00, 100536.00),
    AnnexCRecord("3", "INV-17711358763832", "FBR-CCNA2", "17 Feb 2026", "Premium Garments (Pvt) Ltd",
                 "32-00-6109-999-00", "Sindh", 245000.00, 44100.00, 289100.00)
  ]

  /** `totalTaxable`: the left fold of the taxable amounts, which is never negative
      when none of them is. */
  function TotalTaxable(rs: seq<AnnexCRecord>): (t: real)
    ensures (forall i :: 0 <= i < |rs| ==> rs[i].taxableAmount >= 0.0) ==> t >= 0.0
  {
    if rs == [] then 0.0 else TotalTaxable(rs[..|rs| - 1]) + rs[|rs| - 1].taxableAmount
  }

  /** `totalTax`: the left fold of the tax amounts, which is never negative
      when none of them is. */
  function TotalTax(rs: seq<AnnexCRecord>): (t: real)
    ensures (forall i :: 0 <= i < |rs| ==> rs[i].taxAmount >= 0.0) ==> t >= 0.0
  {
    if rs == [] then 0.0 else TotalTax(rs[..|rs| - 1]) + rs[|rs| - 1].taxAmount
  }

  /** `totalAmount`: the left fold of the record totals, which is never negative
      when none of them is. */
  function TotalAmount(rs: seq<AnnexCRecord>): (t: real)
    ensures (forall i :: 0 <= i < |rs| ==> rs[i].totalAmount >= 0.0) ==> t >= 0.0
  {
    if rs == [] then 0.0 else TotalAmount(rs[..|rs| - 1]) + rs[|rs| - 1].totalAmount
  }

  /** A record whose total is its taxable amount plus its tax. */
  predicate Balanced(r: AnnexCRecord)
  {
    r.totalAmount == r.taxableAmount + r.taxAmount
  }

  /** A record taxed at the standard 18%. */
  predicate StandardRated(r: AnnexCRecord)
  {
    r.taxAmount == r.taxableAmount * 18.0 / 100.0
  }

  /** Adding a record to the list raises each total by exactly the record's own figure;
      an empty list has all totals 0. */
  lemma AppendRecord(rs: seq<AnnexCRecord>, r: AnnexCRecord)
    ensures TotalTaxable([]) == 0.0 && TotalTax([]) == 0.0 && TotalAmount([]) == 0.0
    ensures TotalTaxable(rs + [r]) == TotalTaxable(rs) + r.taxableAmount
    ensures TotalTax(rs + [r]) == TotalTax(rs) + r.taxAmount
    ensures TotalAmount(rs + [r]) == TotalAmount(rs) + r.totalAmount
  {
  }

  /** When every record is balanced, the grand total is the taxable total plus the tax total. */
  lemma {:induction false} BalancedTotals(rs: seq<AnnexCRecord>)
    requires forall i :: 0 <= i < |rs| ==> Balanced(rs[i])
    ensures TotalAmount(rs) == TotalTaxable(rs) + TotalTax(rs)
  {
    if rs != [] {
      var front := rs[..|rs| - 1];
      assert forall i :: 0 <= i < |front| ==> Balanced(front[i]) by {
        forall i | 0 <= i < |front| ensures Balanced(front[i]) {
          assert front[i] == rs[i];
        }
      }
      BalancedTotals(front);
      assert Balanced(rs[|rs| - 1]);
    }
  }

  /** When every record is taxed at 18%, so is the sum. */
  lemma {:induction false} StandardRatedTotals(rs: seq<AnnexCRecord>)
    requires forall i :: 0 <= i < |rs| ==> StandardRated(rs[i])
    ensures TotalTax(rs) == TotalTaxable(rs) * 18.0 / 100.0
  {
    if rs != [] {
      var front := rs[..|rs| - 1];
      assert forall i :: 0 <= i < |front| ==> StandardRated(front[i]) by {
        forall i | 0 <= i < |front| ensures StandardRated(front[i]) {
          assert front[i] == rs[i];
        }
      }
      StandardRatedTotals(front);
      assert StandardRated(rs[|rs| - 1]);
    }
  }

  /** Each of the screen's records is balanced and taxed at 18%. */
  lemma RecordsConsistent()
    ensures forall i :: 0 <= i < |Records| ==> Balanced(Records[i]) && StandardRated(Records[i])
  {
  }

  /** The "Total Invoices" card shows the length of the list: 3. */
  lemma RecordsCount()
    ensures |Records| == 3
  {
  }

  /** The figures the screen shows: taxable 455600, tax 82008, total 537608;
      the total equals taxable plus tax, and the tax is 18% of the taxable amount. */
  lemma RecordsTotals()
    ensures TotalTaxable(Records) == 455600.0
    ensures TotalTax(Records) == 82008.0
    ensures TotalAmount(Records) == 537608.0
    ensures TotalAmount(Records) == TotalTaxable(Records) + TotalTax(Records)
    ensures TotalTax(Records) == TotalTaxable(Records) * 18.0 / 100.0
  {
    var r0, r1, r2 := Records[0], Records[1], Records[2];
    assert [] + [r0] == [r0];
    AppendRecord([], r0);
    assert [r0] + [r1] == [r0, r1];
    AppendRecord([r0], r1);
    assert [r0, r1] + [r2] == Records;
    AppendRecord([r0, r1], r2);
  }
}
