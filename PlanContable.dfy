/**
 * The chart-of-accounts screen: the accounts listed by code on a sorted
 * copy, the empty state, and the open/save handlers of the account form.
 * `localeCompare` on codes is modelled by code-point order.
 */
module PlanContable {
  import opened Outcomes
  import opened Text
  import opened Domain
  import opened Sorting

  const BY_CODIGO := (a: CuentaContable, b: CuentaContable) => StrLe(a.codigo, b.codigo)

  lemma ByCodigoIsTotalPreorder()
    ensures TotalPreorder(BY_CODIGO)
  {
    forall a: CuentaContable, b: CuentaContable ensures BY_CODIGO(a, b) || BY_CODIGO(b, a) {
      StrLeTotal(a.codigo, b.codigo);
    }
    forall a: CuentaContable, b: CuentaContable, c: CuentaContable | BY_CODIGO(a, b) && BY_CODIGO(b, c)
      ensures BY_CODIGO(a, c)
    {
      StrLeTransitive(a.codigo, b.codigo, c.codigo);
    }
  }

  /** `[...cuentas].sort((a, b) => a.codigo.localeCompare(b.codigo))`. */
  function SortedCuentas(cuentas: seq<CuentaContable>): seq<CuentaContable>
  {
    Sort(cuentas, BY_CODIGO)
  }

  /**
   * The listing is ascending by code, holds the same accounts as many times
   * as the input, and keeps accounts with equal codes in input order.
   */
  lemma SortedCuentasSpec(cuentas: seq<CuentaContable>)
    ensures var r := SortedCuentas(cuentas);
      && |r| == |cuentas|
      && multiset(r) == multiset(cuentas)
      && (forall i, j :: 0 <= i < j < |r| ==> StrLe(r[i].codigo, r[j].codigo))
      && (forall y :: Ties(r, BY_CODIGO, y) == Ties(cuentas, BY_CODIGO, y))
  {
    ByCodigoIsTotalPreorder();
    SortIsStableSort(cuentas, BY_CODIGO);
    var r := SortedCuentas(cuentas);
    forall i, j | 0 <= i < j < |r| ensures StrLe(r[i].codigo, r[j].codigo) {
      assert BY_CODIGO(r[i], r[j]);
    }
  }

  /** The empty state is shown exactly when there are no accounts. */
  predicate ShowsEmptyState(cuentas: seq<CuentaContable>)
  {
    |SortedCuentas(cuentas)| == 0
  }

  lemma EmptyStateSpec(cuentas: seq<CuentaContable>)
    ensures ShowsEmptyState(cuentas) <==> cuentas == []
  {
  }

  class Manager {
    var isFormOpen: bool
    var editing: Option<CuentaContable>

    constructor()
      ensures !isFormOpen && editing.None?
    {
      isFormOpen := false;
      editing := None;
    }

    /** `handleOpenFormModal`: the form opens on the given account, or on a new one. */
    method OpenForm(cuenta: Option<CuentaContable>)
      modifies this
      ensures isFormOpen && editing == cuenta
    {
      editing := cuenta;
      isFormOpen := true;
    }

    /** `handleSave`: the account is handed to the owner and the form closes. */
    method Save(cuenta: CuentaContable) returns (forwarded: CuentaContable)
      modifies this
      ensures forwarded == cuenta
      ensures !isFormOpen && editing == old(editing)
    {
      forwarded := cuenta;
      isFormOpen := false;
    }

    method CloseForm()
      modifies this
      ensures !isFormOpen && editing == old(editing)
    {
      isFormOpen := false;
    }
  }
}
