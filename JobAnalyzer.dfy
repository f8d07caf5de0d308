/** The job analyzer page: a job post goes in, a fixed mock analysis comes out
    two seconds later, and "generate" stores a mock proposal built from that
    analysis as the current, unsaved proposal. The page does not call the AI
    gateway. */
module JobAnalyzerPage {
  import opened Optional
  import opened Text
  import opened Collections
  import opened Records
  import opened Storage
  import opened AiService

  const MockScope :=
    "Medium complexity project requiring full-stack development "
    + "with modern technologies"

  /** The analysis the timer always sets, whatever the job post says. */
  const MockAnalysis: JobAnalysis := JobAnalysis(
    ["React", "Node.js", "TypeScript", "API Integration", "UI/UX Design"],
    MockScope,
    ["Responsive web application", "REST API backend", "User authentication system",
     "Admin dashboard", "Documentation and testing"],
    "$3,000 - $5,000",
    "EST (UTC-5)",
    ["Tight deadline may require overtime", "Third-party API dependencies unclear",
     "Design requirements need clarification"])

  /** The mock analysis has 5 skills, 5 deliverables and 3 risks, and it is
      the gateway's demo analysis with a longer scope. */
  lemma MockAnalysisShape()
    ensures |MockAnalysis.skills| == 5 && |MockAnalysis.deliverables| == 5 && |MockAnalysis.risks| == 3
    ensures MockAnalysis.budget == "$3,000 - $5,000"
    ensures MockAnalysis == DemoAnalysis.(scope := MockScope)
  {
  }

  const MockClosing :=
    ") and can start immediately. Let's discuss how we can bring "
    + "your vision to life.\n\n"
    + "Best regards,\n"
    + "[Your Name]"

  /** The page's cover letter: the scope as written (not lower-cased), the
      first three skills, the timezone, and the signature "[Your Name]". */
  function MockCoverLetter(a: JobAnalysis): string {
    CoverOpening + a.scope + " project. With my expertise in " + Join(Take(a.skills, 3), ", ") + ", "
    + CoverMiddle + (a.timezone + MockClosing)
  }

  /** The letter opens with the scope as written and the first three skills,
      and closes with the timezone and the bracketed signature. */
  lemma MockCoverLetterShape(a: JobAnalysis)
    ensures StartsWith(MockCoverLetter(a), CoverOpening + a.scope + " project. With my expertise in "
                          + Join(Take(a.skills, 3), ", ") + ", ")
    ensures EndsWith(MockCoverLetter(a), a.timezone + MockClosing)
  {
    var head := CoverOpening + a.scope + " project. With my expertise in " + Join(Take(a.skills, 3), ", ") + ", ";
    ConcatEnds(head, CoverMiddle, a.timezone + MockClosing);
  }

  /** The page's letter never equals the gateway's demo letter for the same
      analysis: the signatures differ in their last character. */
  lemma MockLetterDiffersFromDemo(a: JobAnalysis)
    ensures MockCoverLetter(a) != DemoCoverLetter(a)
  {
    MockCoverLetterShape(a);
    var m, d := MockCoverLetter(a), DemoCoverLetter(a);
    var mt, dt := a.timezone + MockClosing, a.timezone + CoverClosing;
    assert m[|m| - 1] == mt[|mt| - 1] == ']';
    assert d[|d| - 1] == dt[|dt| - 1] == 'e';
  }

  /** `mockProposal`: the mock letter with the gateway's default milestones,
      pricing and questions, which the page repeats. */
  function MockProposal(a: JobAnalysis): ProposalData
  {
    ProposalData(MockCoverLetter(a), DefaultMilestones, DefaultPricing, DefaultQuestions)
  }

  /** The mock proposal is the gateway's demo proposal for the same analysis
      with the page's own letter. */
  lemma MockProposalIsDemoWithOwnLetter(a: JobAnalysis)
    ensures MockProposal(a) == DemoProposal(a).(coverLetter := MockCoverLetter(a))
    ensures MockProposal(a) != DemoProposal(a)
    ensures |MockProposal(a).milestones| == 3 && |MockProposal(a).questions| == 5
  {
    MockLetterDiffersFromDemo(a);
  }

  class JobAnalyzerPageState {
    const store: Store
    var jobPost: string
    var analysis: Option<JobAnalysis>
    var isAnalyzing: bool
    var showProposal: bool
    /** Analysis timers started and not yet fired. */
    var pendingAnalyses: nat

    /** While analysing a timer is waiting, and the only analysis ever shown is
        the mock one. */
    predicate Valid()
      reads this`isAnalyzing, this`pendingAnalyses, this`analysis
    {
      && (isAnalyzing ==> pendingAnalyses > 0)
      && (analysis.Some? ==> analysis.value == MockAnalysis)
    }

    constructor(store: Store)
      ensures Valid()
      ensures this.store == store && jobPost == "" && analysis == None
      ensures !isAnalyzing && !showProposal && pendingAnalyses == 0
    {
      this.store := store;
      jobPost := "";
      analysis := None;
      isAnalyzing := false;
      showProposal := false;
      pendingAnalyses := 0;
    }

    method SetJobPost(text: string)
      modifies this`jobPost
      ensures jobPost == text
    {
      jobPost := text;
    }

    /** The "Analyze" button is enabled for a non-blank post while no analysis
        is running. */
    predicate CanAnalyze()
      reads this
    {
      !IsBlank(jobPost) && !isAnalyzing
    }

    /** `analyzeJobPost`: a blank post does nothing; otherwise the spinner
        starts and a timer is set. */
    method Analyze()
      requires Valid()
      modifies this`isAnalyzing, this`pendingAnalyses
      ensures Valid()
      ensures IsBlank(jobPost) ==> isAnalyzing == old(isAnalyzing) && pendingAnalyses == old(pendingAnalyses)
      ensures !IsBlank(jobPost) ==> isAnalyzing && pendingAnalyses == old(pendingAnalyses) + 1
    {
      if !IsBlank(jobPost) {
        isAnalyzing := true;
        pendingAnalyses := pendingAnalyses + 1;
      }
    }

    /** A timer fires: the mock analysis is shown and the spinner stops. With
        no timer waiting nothing happens. */
    method AnalysisTimerFires()
      requires Valid()
      modifies this`analysis, this`isAnalyzing, this`pendingAnalyses
      ensures Valid()
      ensures old(pendingAnalyses) == 0 ==>
        analysis == old(analysis) && isAnalyzing == old(isAnalyzing) && pendingAnalyses == 0
      ensures old(pendingAnalyses) > 0 ==>
        analysis == Some(MockAnalysis) && !isAnalyzing && pendingAnalyses == old(pendingAnalyses) - 1
    {
      if pendingAnalyses > 0 {
        analysis := Some(MockAnalysis);
        isAnalyzing := false;
        pendingAnalyses := pendingAnalyses - 1;
      }
    }

    /** `generateProposal`: without an analysis nothing happens; otherwise the
        mock proposal, without id or title, becomes the current proposal and
        the page says so. */
    method GenerateProposal()
      modifies store`currentProposal, this`showProposal
      ensures analysis.None? ==> store.currentProposal == old(store.currentProposal) && showProposal == old(showProposal)
      ensures analysis.Some? ==>
        && store.currentProposal == Some(Draft(None, None, MockProposal(analysis.value)))
        && showProposal
    {
      if analysis.Some? {
        store.currentProposal := Some(Draft(None, None, MockProposal(analysis.value)));
        showProposal := true;
      }
    }
  }
}
