/**
 * The manual journal-entry editor: a list of at least two lines, each with an
 * account, a debit (debe) and a credit (haber), edited line by line and
 * submitted only when balanced, fully assigned and described.
 */
module ManualEntry {
  import opened Numbers
  import opened Text
  import opened Domain
  import opened Sorting

  const BALANCE_TOLERANCE: real := 0.001

  function EmptyLine(id: string): AsientoManualEntry
  {
    AsientoManualEntry(id, "", 0.0, 0.0)
  }

  function TotalDebe(es: seq<AsientoManualEntry>): real
  {
    if es == [] then 0.0 else TotalDebe(es[..|es| - 1]) + es[|es| - 1].debe
  }

  function TotalHaber(es: seq<AsientoManualEntry>): real
  {
    if es == [] then 0.0 else TotalHaber(es[..|es| - 1]) + es[|es| - 1].haber
  }

  predicate IsBalanced(es: seq<AsientoManualEntry>)
  {
    Abs(TotalDebe(es) - TotalHaber(es)) < BALANCE_TOLERANCE
  }

  /** The save button's `disabled`. */
  predicate SaveDisabled(es: seq<AsientoManualEntry>)
  {
    !IsBalanced(es) || TotalDebe(es) == 0.0
  }

  /** A line never carries both a positive debit and a positive credit. */
  predicate OneSided(e: AsientoManualEntry)
  {
    !(e.debe > 0.0 && e.haber > 0.0)
  }

  predicate DistinctIds(es: seq<AsientoManualEntry>)
  {
    forall i, j :: 0 <= i < j < |es| ==> es[i].id != es[j].id
  }

  /** One edit of a line's field, as `handleEntryChange` receives it. */
  datatype LineEdit = SetCuenta(cuentaId: string) | SetDebe(debe: real) | SetHaber(haber: real)

  /** The edited line: a positive debit clears the credit and vice versa. */
  function ApplyEdit(e: AsientoManualEntry, edit: LineEdit): (r: AsientoManualEntry)
    ensures r.id == e.id
    ensures OneSided(e) ==> OneSided(r)
    ensures edit.SetDebe? && edit.debe > 0.0 ==> r.haber == 0.0 && r.debe == edit.debe
    ensures edit.SetHaber? && edit.haber > 0.0 ==> r.debe == 0.0 && r.haber == edit.haber
  {
    match edit
    case SetCuenta(c) => e.(cuentaId := c)
    case SetDebe(v) => e.(debe := v, haber := if v > 0.0 then 0.0 else e.haber)
    case SetHaber(v) => e.(haber := v, debe := if v > 0.0 then 0.0 else e.debe)
  }

  function EditLines(es: seq<AsientoManualEntry>, id: string, edit: LineEdit): (r: seq<AsientoManualEntry>)
    ensures |r| == |es|
    ensures forall i :: 0 <= i < |es| ==> r[i] == if es[i].id == id then ApplyEdit(es[i], edit) else es[i]
  {
    seq(|es|, i requires 0 <= i < |es| => if es[i].id == id then ApplyEdit(es[i], edit) else es[i])
  }

  function WithoutLine(es: seq<AsientoManualEntry>, id: string): seq<AsientoManualEntry>
  {
    Filter(es, (e: AsientoManualEntry) => e.id != id)
  }

  /** Removing one id from lines with distinct ids drops at most one line and keeps ids distinct. */
  lemma {:induction false} WithoutLineSpec(es: seq<AsientoManualEntry>, id: string)
    requires DistinctIds(es)
    ensures |WithoutLine(es, id)| >= |es| - 1
    ensures DistinctIds(WithoutLine(es, id))
    ensures forall i :: 0 <= i < |WithoutLine(es, id)| ==> WithoutLine(es, id)[i] in es && WithoutLine(es, id)[i].id != id
    ensures forall i :: 0 <= i < |es| && es[i].id != id ==> es[i] in WithoutLine(es, id)
    decreases |es|
  {
    var p := (e: AsientoManualEntry) => e.id != id;
    if es != [] {
      var front, last := es[..|es| - 1], es[|es| - 1];
      assert es == front + [last];
      WithoutLineSpec(front, id);
      var rf := WithoutLine(front, id);
      var r := WithoutLine(es, id);
      assert r == rf + (if last.id != id then [last] else []);
      if last.id == id {
        assert forall i :: 0 <= i < |front| ==> front[i].id != id;
        FilterAll(front, p);
      }
      forall i | 0 <= i < |r| ensures r[i] in es && r[i].id != id {
        FilterMembership(es, p, r[i]);
      }
      forall i | 0 <= i < |es| && es[i].id != id ensures es[i] in r {
        FilterMembership(es, p, es[i]);
      }
      forall i, j | 0 <= i < j < |r| ensures r[i].id != r[j].id {
        if j == |rf| {
          assert r[i] == rf[i];
          var k :| 0 <= k < |front| && front[k] == rf[i];
          assert es[k].id != es[|es| - 1].id;
        }
      }
    }
  }

  lemma WithoutLineOneSided(es: seq<AsientoManualEntry>, id: string)
    requires forall i :: 0 <= i < |es| ==> OneSided(es[i])
    ensures forall i :: 0 <= i < |WithoutLine(es, id)| ==> OneSided(WithoutLine(es, id)[i])
  {
    var r := WithoutLine(es, id);
    forall i | 0 <= i < |r| ensures OneSided(r[i]) {
      FilterMembership(es, (e: AsientoManualEntry) => e.id != id, r[i]);
    }
  }

  /** What a submission leads to, the checks taken in the editor's order. */
  datatype SubmitOutcome =
    | Unbalanced
    | MissingAccount
    | MissingDescription
    | Saved(fecha: Date, descripcion: string, entries: seq<AsientoManualEntry>)

  function SubmitCheck(fecha: Date, descripcion: string, es: seq<AsientoManualEntry>): SubmitOutcome
  {
    if !IsBalanced(es) then Unbalanced
    else if exists i :: 0 <= i < |es| && es[i].cuentaId == "" then MissingAccount
    else if IsBlank(descripcion) then MissingDescription
    else Saved(fecha, descripcion, es)
  }

  /**
   * An entry is saved exactly when it is balanced, every line has an
   * account and the description is not blank; what is saved is the form as
   * it stands. Each failure is reported only when the earlier checks pass.
   */
  lemma SubmitCheckSpec(fecha: Date, descripcion: string, es: seq<AsientoManualEntry>)
    ensures var r := SubmitCheck(fecha, descripcion, es);
      && (r.Saved? <==> IsBalanced(es) && (forall i :: 0 <= i < |es| ==> es[i].cuentaId != "") && !IsBlank(descripcion))
      && (r.Saved? ==> r == Saved(fecha, descripcion, es))
      && (r == Unbalanced <==> !IsBalanced(es))
      && (r == MissingAccount ==> IsBalanced(es))
      && (r == MissingDescription ==> IsBalanced(es) && forall i :: 0 <= i < |es| ==> es[i].cuentaId != "")
  {
  }

  /** When the save button is enabled the balance check passes. */
  lemma EnabledSaveIsBalanced(fecha: Date, descripcion: string, es: seq<AsientoManualEntry>)
    requires !SaveDisabled(es)
    ensures SubmitCheck(fecha, descripcion, es) != Unbalanced
    ensures TotalDebe(es) != 0.0
  {
  }

  lemma TotalsSnoc(es: seq<AsientoManualEntry>, e: AsientoManualEntry)
    ensures TotalDebe(es + [e]) == TotalDebe(es) + e.debe
    ensures TotalHaber(es + [e]) == TotalHaber(es) + e.haber
  {
    assert (es + [e])[..|es|] == es;
  }

  /** Adding an empty line changes neither total, so neither the balance. */
  lemma AddLineKeepsTotals(es: seq<AsientoManualEntry>, id: string)
    ensures TotalDebe(es + [EmptyLine(id)]) == TotalDebe(es)
    ensures TotalHaber(es + [EmptyLine(id)]) == TotalHaber(es)
    ensures IsBalanced(es + [EmptyLine(id)]) == IsBalanced(es)
  {
    TotalsSnoc(es, EmptyLine(id));
  }

  /** Choosing a line's account changes neither total. */
  lemma {:induction false} SetCuentaKeepsTotals(es: seq<AsientoManualEntry>, id: string, c: string)
    ensures TotalDebe(EditLines(es, id, SetCuenta(c))) == TotalDebe(es)
    ensures TotalHaber(EditLines(es, id, SetCuenta(c))) == TotalHaber(es)
    decreases |es|
  {
    if es != [] {
      var front := es[..|es| - 1];
      SetCuentaKeepsTotals(front, id, c);
      var r := EditLines(es, id, SetCuenta(c));
      assert r[..|r| - 1] == EditLines(front, id, SetCuenta(c));
    }
  }

  /** The editor's state: the date, the description and the lines. */
  class Editor {
    var fecha: Date
    var descripcion: string
    var entries: seq<AsientoManualEntry>

    ghost predicate Valid()
      reads this
    {
      && |entries| >= 2
      && DistinctIds(entries)
      && (forall i :: 0 <= i < |entries| ==> OneSided(entries[i]))
    }

    /** A fresh form: today's date, no description, two empty lines. */
    constructor(today: Date, id1: string, id2: string)
      requires id1 != id2
      ensures Valid()
      ensures fecha == today && descripcion == "" && entries == [EmptyLine(id1), EmptyLine(id2)]
    {
      fecha := today;
      descripcion := "";
      entries := [EmptyLine(id1), EmptyLine(id2)];
    }

    method SetFecha(d: Date)
      modifies this
      ensures fecha == d && descripcion == old(descripcion) && entries == old(entries)
    {
      fecha := d;
    }

    method SetDescripcion(s: string)
      modifies this
      ensures descripcion == s && fecha == old(fecha) && entries == old(entries)
    {
      descripcion := s;
    }

    /** `handleAddEntry`: appends an empty line with a new id. */
    method AddEntry(id: string)
      requires Valid()
      requires forall i :: 0 <= i < |entries| ==> entries[i].id != id
      modifies this
      ensures Valid()
      ensures entries == old(entries) + [EmptyLine(id)]
      ensures fecha == old(fecha) && descripcion == old(descripcion)
    {
      entries := entries + [EmptyLine(id)];
    }

    /** `handleRemoveEntry`: drops the line only while more than two remain. */
    method RemoveEntry(id: string) returns (removed: bool)
      requires Valid()
      modifies this
      ensures Valid()
      ensures removed <==> |old(entries)| > 2
      ensures removed ==> entries == WithoutLine(old(entries), id)
      ensures !removed ==> entries == old(entries)
      ensures fecha == old(fecha) && descripcion == old(descripcion)
    {
      if |entries| > 2 {
        WithoutLineSpec(entries, id);
        WithoutLineOneSided(entries, id);
        entries := WithoutLine(entries, id);
        removed := true;
      } else {
        removed := false;
      }
    }

    /** `handleEntryChange`: edits the line with that id; the others are untouched. */
    method ChangeEntry(id: string, edit: LineEdit)
      requires Valid()
      modifies this
      ensures Valid()
      ensures entries == EditLines(old(entries), id, edit)
      ensures fecha == old(fecha) && descripcion == old(descripcion)
    {
      entries := EditLines(entries, id, edit);
    }

    /** `handleSubmit`: what is reported, or what is handed to `onSave`. */
    method Submit() returns (outcome: SubmitOutcome)
      ensures outcome == SubmitCheck(fecha, descripcion, entries)
    {
      if !IsBalanced(entries) {
        return Unbalanced;
      }
      var k := 0;
      while k < |entries|
        invariant 0 <= k <= |entries|
        invariant forall i :: 0 <= i < k ==> entries[i].cuentaId != ""
      {
        if entries[k].cuentaId == "" {
          return MissingAccount;
        }
        k := k + 1;
      }
      if IsBlank(descripcion) {
        return MissingDescription;
      }
      outcome := Saved(fecha, descripcion, entries);
    }

    /** The reset when the editor closes: back to a fresh form. */
    method Reset(today: Date, id1: string, id2: string)
      requires id1 != id2
      modifies this
      ensures Valid()
      ensures fecha == today && descripcion == "" && entries == [EmptyLine(id1), EmptyLine(id2)]
    {
      fecha := today;
      descripcion := "";
      entries := [EmptyLine(id1), EmptyLine(id2)];
    }
  }
}
