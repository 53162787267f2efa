/**
 * The form for an associate's debt: two linked amount inputs, bolívares and
 * dollars, converted through the BCV rate. Whichever side was edited last
 * drives the other, rounded to cents; an input may be empty (`''`).
 */
module PagoAsociadoForm {
  import opened Outcomes
  import opened Numbers
  import opened Domain

  /** An amount input: empty, or whatever `parseFloat` made of the text. */
  datatype Entry = Blank | Entered(n: Num)

  datatype Side = Bs | Usd

  /** The due date is a date input's value, which the user may clear (`None`). */
  datatype PagoAsociado = PagoAsociado(
    id: string, asociadoId: string, concepto: string, cuotas: string,
    montoBs: Num, montoUsd: Num, fechaVencimiento: Option<Date>, status: string)

  /** `companyInfo.bcvRate || 1`. */
  function EffectiveRate(bcvRate: Num): (rate: real)
    ensures rate != 0.0
    ensures bcvRate.Num? && bcvRate.v != 0.0 ==> rate == bcvRate.v
    ensures bcvRate.NaN? || bcvRate.v == 0.0 ==> rate == 1.0
  {
    OrOne(bcvRate)
  }

  /** A JavaScript number is truthy when it is neither 0 nor NaN. */
  predicate Truthy(n: Num)
  {
    n.Num? && n.v != 0.0
  }

  /** `parseFloat((bs / rate).toFixed(2))`. */
  function ToUsd(bs: Num, rate: real): (usd: Num)
    requires rate > 0.0
    ensures usd.NaN? <==> bs.NaN?
    ensures usd.Num? ==> IsCents(usd.v) && Abs(usd.v * rate - bs.v) <= 0.005 * rate
  {
    if bs.NaN? then NaN
    else
      var u := RoundCents(bs.v / rate);
      assert u * rate - bs.v == (u - bs.v / rate) * rate;
      ScaleBound(u - bs.v / rate, rate);
      Num(u)
  }

  /** `parseFloat((usd * rate).toFixed(2))`. */
  function ToBs(usd: Num, rate: real): (bs: Num)
    ensures bs.NaN? <==> usd.NaN?
    ensures bs.Num? ==> IsCents(bs.v) && Abs(bs.v - usd.v * rate) <= 0.005
  {
    if usd.NaN? then NaN else Num(RoundCents(usd.v * rate))
  }

  lemma ScaleBound(x: real, rate: real)
    requires rate > 0.0 && Abs(x) <= 0.005
    ensures Abs(x * rate) <= 0.005 * rate
  {
    if x >= 0.0 {
      assert x * rate <= 0.005 * rate;
    } else {
      assert (-x) * rate <= 0.005 * rate;
    }
  }

  /** A new debt: empty concept and instalments, zero amounts, due today, pending. */
  function NewPago(asociadoId: string, today: Date): PagoAsociado
  {
    PagoAsociado("", asociadoId, "", "", Num(0.0), Num(0.0), Some(today), STATUS_PENDIENTE)
  }

  /** The bolívar input on opening: the stored amount, or empty when it is falsy. */
  function InitialBs(p: PagoAsociado): (e: Entry)
    ensures e.Entered? <==> Truthy(p.montoBs)
    ensures e.Entered? ==> e.n == p.montoBs
  {
    if Truthy(p.montoBs) then Entered(p.montoBs) else Blank
  }

  /** `montoBs / rate` on JavaScript numbers. */
  function Div(n: Num, rate: real): Num
    requires rate != 0.0
  {
    if n.NaN? then NaN else Num(n.v / rate)
  }

  /** The dollar input on opening: the stored amount, else the bolívar amount at the rate, else empty. */
  function InitialUsd(p: PagoAsociado, rate: real): (e: Entry)
    requires rate != 0.0
    ensures Truthy(p.montoUsd) ==> e == Entered(p.montoUsd)
    ensures !Truthy(p.montoUsd) && Truthy(p.montoBs) ==> e == Entered(Num(p.montoBs.v / rate))
    ensures !Truthy(p.montoUsd) && !Truthy(p.montoBs) ==> e == Blank
  {
    if Truthy(p.montoUsd) then Entered(p.montoUsd)
    else if Truthy(Div(p.montoBs, rate)) then Entered(Div(p.montoBs, rate))
    else Blank
  }

  /** What submit stores for an input: its number, or 0 when empty. */
  function Amount(e: Entry): (n: Num)
    ensures e.Blank? ==> n == Num(0.0)
    ensures e.Entered? ==> n == e.n
  {
    match e
    case Blank => Num(0.0)
    case Entered(x) => x
  }

  datatype Field = Concepto(concepto: string) | Cuotas(cuotas: string) | Vencimiento(date: Option<Date>)

  class Form {
    const rate: real
    var formData: PagoAsociado
    var montoBs: Entry
    var montoUsd: Entry
    var lastEdited: Side

    /** The two conversion effects have run: the side edited last determines the other. */
    ghost predicate Valid()
      reads this
    {
      && rate != 0.0
      && (lastEdited == Bs && montoBs.Entered? && rate > 0.0 ==> montoUsd == Entered(ToUsd(montoBs.n, rate)))
      && (lastEdited == Usd && montoUsd.Entered? && rate > 0.0 ==> montoBs == Entered(ToBs(montoUsd.n, rate)))
    }

    /** Opening the form, followed by the bolívar effect it triggers. */
    constructor(bcvRate: Num, pago: Option<PagoAsociado>, asociadoId: string, today: Date)
      ensures Valid()
      ensures rate == EffectiveRate(bcvRate)
      ensures formData == pago.GetOr(NewPago(asociadoId, today))
      ensures lastEdited == Bs && montoBs == InitialBs(formData)
      ensures montoBs.Blank? || rate < 0.0 ==> montoUsd == InitialUsd(formData, rate)
    {
      var r := EffectiveRate(bcvRate);
      var initial := pago.GetOr(NewPago(asociadoId, today));
      var bs := InitialBs(initial);
      var usd := InitialUsd(initial, r);
      if bs.Entered? && r > 0.0 {
        usd := Entered(ToUsd(bs.n, r));
      }
      rate := r;
      formData := initial;
      montoBs := bs;
      montoUsd := usd;
      lastEdited := Bs;
    }

    /** Typing in the bolívar input; a positive rate then recomputes the dollars. */
    method EditBs(entry: Entry)
      requires Valid()
      modifies this
      ensures Valid()
      ensures lastEdited == Bs && montoBs == entry && formData == old(formData)
      ensures entry.Entered? && rate > 0.0 ==> montoUsd == Entered(ToUsd(entry.n, rate))
      ensures !(entry.Entered? && rate > 0.0) ==> montoUsd == old(montoUsd)
    {
      lastEdited := Bs;
      montoBs := entry;
      if montoBs.Entered? && rate > 0.0 {
        montoUsd := Entered(ToUsd(montoBs.n, rate));
      }
    }

    /** Typing in the dollar input; a positive rate then recomputes the bolívars. */
    method EditUsd(entry: Entry)
      requires Valid()
      modifies this
      ensures Valid()
      ensures lastEdited == Usd && montoUsd == entry && formData == old(formData)
      ensures entry.Entered? && rate > 0.0 ==> montoBs == Entered(ToBs(entry.n, rate))
      ensures !(entry.Entered? && rate > 0.0) ==> montoBs == old(montoBs)
    {
      lastEdited := Usd;
      montoUsd := entry;
      if montoUsd.Entered? && rate > 0.0 {
        montoBs := Entered(ToBs(montoUsd.n, rate));
      }
    }

    method Change(field: Field)
      requires Valid()
      modifies this
      ensures Valid()
      ensures montoBs == old(montoBs) && montoUsd == old(montoUsd) && lastEdited == old(lastEdited)
      ensures formData == match field
        case Concepto(x) => old(formData).(concepto := x)
        case Cuotas(x) => old(formData).(cuotas := x)
        case Vencimiento(x) => old(formData).(fechaVencimiento := x)
    {
      match field {
        case Concepto(x) => formData := formData.(concepto := x);
        case Cuotas(x) => formData := formData.(cuotas := x);
        case Vencimiento(x) => formData := formData.(fechaVencimiento := x);
      }
    }

    /** `handleSubmit`: the form data with both amounts, empty inputs saved as 0. */
    method Submit() returns (saved: PagoAsociado)
      ensures saved.(montoBs := formData.montoBs, montoUsd := formData.montoUsd) == formData
      ensures saved.montoBs == Amount(montoBs) && saved.montoUsd == Amount(montoUsd)
    {
      saved := formData.(montoBs := Amount(montoBs), montoUsd := Amount(montoUsd));
    }
  }
}
