/** One generation run as the hooks see it: the pre-generation checks on
    the answers, then the post-generation pruning of the rendered project
    and its "Next steps" printout. Both hooks read the options from their
    printed text, so a boolean answer reaches them as "True" or "False". */
module Generation {
  import opened Wrappers
  import opened FileTree
  import opened Truthiness
  import PreGen
  import opened PostGen
  import opened PostGenLaws
  import opened HookLaws
  import NextSteps

  /** The answers the hooks read. */
  datatype Context = Context(
    slug: string, email: string, manager: string,
    latex: FlagValue, notebooks: FlagValue, r: FlagValue, stata: FlagValue, chartbook: FlagValue,
    githubActions: FlagValue, fred: FlagValue, fedYieldCurve: FlagValue, ofr: FlagValue,
    bloomberg: FlagValue, crspStock: FlagValue, crspCompustat: FlagValue)

  /** How the post-generation hook reads an option: `is_truthy` of its
      printed text, which agrees with `is_truthy` of the answer itself. */
  function Flag(v: FlagValue): (b: bool)
    ensures b == IsTruthy(v)
  {
    RenderKeepsTruth(v);
    IsTruthy(Text(Render(v)))
  }

  function FlagsOf(ctx: Context): Flags {
    Flags(Flag(ctx.latex), Flag(ctx.notebooks), Flag(ctx.r), Flag(ctx.stata), Flag(ctx.chartbook),
          Flag(ctx.githubActions), Flag(ctx.fred), Flag(ctx.fedYieldCurve), Flag(ctx.ofr),
          Flag(ctx.bloomberg), Flag(ctx.crspStock), Flag(ctx.crspCompustat))
  }

  /** Why no project comes out: the pre-generation hook exited with status
      1, or a removal of the post-generation hook raised. */
  datatype GenerationError = Rejected(verdict: PreGen.Verdict) | HookRaised(error: FsError)

  /** The pruned project, whether the e-mail warning was printed, and the
      printed next steps. */
  datatype Outcome = Outcome(project: Tree, emailWarning: bool, nextSteps: seq<string>)

  /** Run both hooks on the rendered project `t`. */
  function Generate(ctx: Context, t: Tree): (r: Result<Outcome, GenerationError>)
    ensures r.Failure? && r.error.Rejected? <==>
      !PreGen.SlugPatternMatches(ctx.slug) || (FlagsOf(ctx).r && PreGen.ManagerWithoutR(ctx.manager))
    ensures r.Failure? && r.error.HookRaised? <==>
      PreGen.SlugPatternMatches(ctx.slug) && !(FlagsOf(ctx).r && PreGen.ManagerWithoutR(ctx.manager))
      && Hook(FlagsOf(ctx), ctx.manager, t).Failure?
  {
    var v := PreGen.Validate(ctx.slug, ctx.email, Render(ctx.r), ctx.manager);
    PreGen.RequestsRIsTruthy(Render(ctx.r));
    if v.verdict != PreGen.Ok then
      Failure(Rejected(v.verdict))
    else
      match Hook(FlagsOf(ctx), ctx.manager, t)
      case Failure(e) => Failure(HookRaised(e))
      case Success(u) => Success(Outcome(u, v.emailWarning, NextSteps.NextSteps(ctx.slug, ctx.manager)))
  }

  /** A successful run is the post-generation hook's result, with the
      pre-generation hook's warning and the printout for the slug. */
  lemma GenerateSucceeds(ctx: Context, t: Tree)
    requires Generate(ctx, t).Success?
    ensures PreGen.Validate(ctx.slug, ctx.email, Render(ctx.r), ctx.manager).verdict == PreGen.Ok
    ensures Hook(FlagsOf(ctx), ctx.manager, t) == Success(Generate(ctx, t).value.project)
    ensures Generate(ctx, t).value.emailWarning <==> |ctx.email| > 0 && '@' !in ctx.email
    ensures Generate(ctx, t).value.nextSteps == NextSteps.NextSteps(ctx.slug, ctx.manager)
  {
  }

  /** A slug the pre-generation check lets through has no dot. */
  lemma SlugHasNoDot(slug: string)
    requires PreGen.SlugPatternMatches(slug)
    ensures '.' !in slug
  {
    forall i | 0 <= i < |slug|
      ensures slug[i] != '.'
    {
      if !PreGen.ValidSlug(slug) && i < |slug| - 1 {
        assert slug[..|slug| - 1][i] == slug[i];
      }
    }
  }

  /** R files survive only in a project whose manager can install R
      packages: the two hooks read the R option alike. */
  lemma RFilesNeedCondaOrPixi(ctx: Context, t: Tree)
    requires WellFormed(t) && Generate(ctx, t).Success?
    ensures forall p | p in Generate(ctx, t).value.project && (p == RRequirements || (ChildOf(p, Src) && RScriptName(Name(p)))) ::
      ctx.manager != "pip" && ctx.manager != "uv"
  {
    var f := FlagsOf(ctx);
    GenerateSucceeds(ctx, t);
    HookResolution(f, ctx.manager, t);
    forall p | p in Generate(ctx, t).value.project && (p == RRequirements || (ChildOf(p, Src) && RScriptName(Name(p))))
      ensures f.r
    {
      RetainedRFile(f, ctx.manager, t, p);
    }
  }

  /** A retained R file means the R option is on. */
  lemma RetainedRFile(f: Flags, manager: string, t: Tree, p: Path)
    requires Retained(f, manager, t, p)
    requires p == RRequirements || (ChildOf(p, Src) && RScriptName(Name(p)))
    ensures f.r
  {
    if p == RRequirements {
      assert FileGate(f, manager, p) == f.r;
    }
  }

  /** Every manifest the printed next steps name is still in the project. */
  lemma PrintedManifestsKept(ctx: Context, t: Tree)
    requires WellFormed(t) && Generate(ctx, t).Success?
    ensures forall q | q in Manifests && q in t && NextSteps.Mentions(Generate(ctx, t).value.nextSteps, q[0]) ::
      q in Generate(ctx, t).value.project
  {
    GenerateSucceeds(ctx, t);
    SlugHasNoDot(ctx.slug);
    forall q | q in Manifests && q in t && NextSteps.Mentions(Generate(ctx, t).value.nextSteps, q[0])
      ensures q in Generate(ctx, t).value.project
    {
      NextSteps.MentionedManifests(ctx.slug, ctx.manager, q[0]);
      ManifestLaw(FlagsOf(ctx), ctx.manager, t, q);
    }
  }

  /** R scripts requested with pip or uv stop the run before any file is
      touched, whatever else was answered. */
  lemma RWithPipOrUvRejected(ctx: Context, t: Tree)
    requires PreGen.ValidSlug(ctx.slug) && ctx.r == Bool(true) && (ctx.manager == "pip" || ctx.manager == "uv")
    ensures Generate(ctx, t) == Failure(Rejected(PreGen.IncompatibleEnvironmentForR))
  {
    assert Lower("True") == "true";
  }
}
