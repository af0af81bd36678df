/** The common rendering step of every audience renderer: transform the
    context for the audience, add the logo and the audience name, and hand
    the result to the audience's template. */
module AudienceRenderers {
  import opened Wrappers
  import opened JsonValues
  import opened Report
  import opened Views
  import ExecutiveRenderer
  import TechnicalRenderer
  import PartnerRenderer
  import Synthesizer

  datatype Audience = Executive | Technical | Partner

  /** `get_template_name`. */
  function TemplateName(a: Audience): string {
    match a
    case Executive => ExecutiveRenderer.TEMPLATE
    case Technical => TechnicalRenderer.TEMPLATE
    case Partner => PartnerRenderer.TEMPLATE
  }

  /** `get_audience_name`. */
  function AudienceName(a: Audience): string {
    match a
    case Executive => ExecutiveRenderer.AUDIENCE
    case Technical => TechnicalRenderer.AUDIENCE
    case Partner => PartnerRenderer.AUDIENCE
  }

  /** `transform_context`, as each renderer is written; only the partner
      transformation can raise. */
  function Transform(a: Audience, ctx: Context): Result<View> {
    match a
    case Executive => Ok(ExecutiveRenderer.ExecutiveView(ctx))
    case Technical => Ok(TechnicalRenderer.TechnicalView(ctx))
    case Partner => PartnerRenderer.PartnerViewAsWritten(ctx)
  }

  const LOGO := "logo_base64"
  const AUDIENCE_KEY := "audience"

  /** What `render` passes to the template: the transformed context with the
      logo and the audience name set, or the error the transformation raised. */
  function TemplateContext(a: Audience, ctx: Context, logo: string): Result<View> {
    match Transform(a, ctx)
    case Err(f) => Err(f)
    case Ok(v) => Ok(v.(context := v.context.(extra := v.context.extra[LOGO := JStr(logo)][AUDIENCE_KEY := JStr(AudienceName(a))])))
  }

  /** The template receives the transformed context with the logo and the
      audience's own name, and every other key of the transformation as it
      was; the executive and technical audiences always get one, and the
      partner audience gets one exactly when its view as written succeeds,
      which is then the intended partner view. */
  lemma TemplateContextSpec(a: Audience, ctx: Context, logo: string)
    ensures TemplateContext(a, ctx, logo).Ok? <==> Transform(a, ctx).Ok?
    ensures !a.Partner? ==> TemplateContext(a, ctx, logo).Ok?
    ensures a.Partner? ==>
      (TemplateContext(a, ctx, logo).Ok? <==> PartnerRenderer.PartnerViewAsWritten(ctx).Ok?) &&
      (TemplateContext(a, ctx, logo).Ok? ==> Transform(a, ctx) == PartnerRenderer.PartnerView(ctx))
    ensures TemplateContext(a, ctx, logo).Ok? ==>
      var v, w := TemplateContext(a, ctx, logo).value, Transform(a, ctx).value;
      v.context.extra[LOGO] == JStr(logo) &&
      v.context.extra[AUDIENCE_KEY] == JStr(AudienceName(a)) &&
      v.(context := w.context) == w &&
      v.context.(extra := w.context.extra) == w.context &&
      forall k :: k in w.context.extra && k != LOGO && k != AUDIENCE_KEY ==>
        k in v.context.extra && v.context.extra[k] == w.context.extra[k]
  {
    if a.Partner? {
      PartnerRenderer.PartnerViewOutcome(ctx);
    }
  }

  /** Rendering a report whose risk analysis failed for the partner audience
      raises, since the synthesizer records the failure as a null analysis. */
  lemma FailedRiskAnalysisFailsPartnerRender(ctx: Context, m: map<string, Json>, f: Failure, logo: string)
    requires ctx.synthesis == Some(Synthesizer.WithRisks(m, Err(f)))
    ensures TemplateContext(Partner, ctx, logo).Err?
  {
    PartnerRenderer.FailedRiskAnalysisBreaksPartnerView(ctx, m, f);
  }

  /** The three audiences have distinct names and templates. */
  lemma AudiencesDistinct(a: Audience, b: Audience)
    requires a != b
    ensures AudienceName(a) != AudienceName(b) && TemplateName(a) != TemplateName(b)
  {
  }
}
