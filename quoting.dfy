/**
 * `configure_part`: the quote assembled from a configuration, and the whole
 * request path from the submitted form to either a quote or a rejection.
 */
module Quoting {
  import opened Wrappers
  import Text
  import opened Rounding
  import opened Config
  import opened Part
  import opened Pricing
  import opened Validation

  datatype Quote = Quote(
    status: string,
    configuration: PartConfiguration,
    estimatedPrice: real,
    estimatedDelivery: string)

  /** The quote for a configuration: the configuration echoed exactly as given,
      the price rounded to two decimals, and the fixed status and delivery
      estimate. */
  function ConfigurePart(c: PartConfiguration): (q: Quote)
    ensures q.status == "success"
    ensures q.configuration == c
    ensures q.estimatedDelivery == DefaultDeliveryTime
    ensures IsCents(q.estimatedPrice)
    ensures -0.005 <= q.estimatedPrice - RawPrice(c) <= 0.005
  {
    Quote("success", c, EstimatedPrice(c), DefaultDeliveryTime)
  }

  /** The answer to a request: HTTP 200 with a quote, or HTTP 422 with the
      failing fields. */
  datatype Response = Quoted(quote: Quote) | Unprocessable(errors: seq<FieldError>)

  function ComputeQuote(form: Form, co: Coercion): (resp: Response)
    ensures resp.Quoted? <==> Validate(form, co).Ok?
    ensures resp.Quoted? ==> resp.quote == ConfigurePart(Validate(form, co).value)
    ensures resp.Quoted? ==> resp.quote.configuration == Validate(form, co).value
    ensures resp.Unprocessable? ==> resp.errors != [] && resp.errors == FieldErrors(form, co)
  {
    match Validate(form, co)
    case Ok(c) => Quoted(ConfigurePart(c))
    case Err(errors) => Unprocessable(errors)
  }

  /** A form missing any required field never produces a quote. */
  lemma MissingFieldNeverQuoted(form: Form, co: Coercion, name: string)
    requires name in RequiredFields && !Present(form, name)
    ensures ComputeQuote(form, co).Unprocessable?
    ensures MissingField(name) in ComputeQuote(form, co).errors
  {
    MissingFieldRejected(form, co, name);
  }

  /** Every quote the endpoint returns has the fixed status and delivery
      estimate, echoes the submitted text of material and surface treatment
      unchanged, and carries a price in whole hundredths. */
  lemma QuoteShape(form: Form, co: Coercion)
    requires ComputeQuote(form, co).Quoted?
    ensures var q := ComputeQuote(form, co).quote;
      && q.status == "success"
      && q.estimatedDelivery == DefaultDeliveryTime
      && "material" in form && q.configuration.material == form["material"]
      && "surface_treatment" in form && q.configuration.surfaceTreatment == form["surface_treatment"]
      && IsCents(q.estimatedPrice)
  {
  }

  /** An unknown material or surface treatment still gets a quote, priced as
      if its multiplier were 1.0. */
  lemma UnknownNamesPricedNeutral(c: PartConfiguration)
    requires Text.Lower(c.material) !in MaterialMultipliers
    requires Text.Lower(c.surfaceTreatment) !in SurfaceTreatmentMultipliers
    ensures ConfigurePart(c).status == "success"
    ensures ConfigurePart(c).estimatedPrice ==
      RoundCents(BasePrice * Volume(c.dimensions) * c.quantity as real)
  {
    assert MaterialMultiplier(c.material) == 1.0;
    assert SurfaceMultiplier(c.surfaceTreatment) == 1.0;
    assert RawPrice(c) == BasePrice * Volume(c.dimensions) * c.quantity as real;
  }
}
