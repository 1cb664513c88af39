/** The Gov1 notification settings: for each Gov1 post kind, the options a
    user can subscribe to, and the mapping from a section's title to its kind. */
module Gov1Notification {
  import opened Wrappers

  /** One subscribable option: its label (`label`), the trigger it subscribes to, the
      name of that trigger's preferences, and the option's value. */
  datatype Entry = Entry(labelText: string, triggerName: string, triggerPreferencesName: string, value: string)

  const SUBMITTED := "gov1ProposalSubmitted"
  const IN_VOTING := "gov1ProposalInVoting"
  const CLOSED := "gov1ProposalClosed"

  const TIPS: seq<Entry> := [
    Entry("New Tips submitted", "gov1ProposalSubmitted", "gov1ProposalSubmitted", "New Tips submitted"),
    Entry("Tips opened", "gov1ProposalInVoting", "gov1ProposalInVoting", "Tips opened"),
    Entry("Tips closed / retracted", "gov1ProposalClosed", "gov1ProposalClosed", "Tips closed / retracted")
  ]

  const TECH_COMMITTEE: seq<Entry> := [
    Entry("New Tech Committe Proposals submitted", "gov1ProposalSubmitted", "gov1ProposalSubmitted",
          "New Tech Committe Proposals submitted"),
    Entry("Proposals closed", "gov1ProposalClosed", "gov1ProposalClosed", "Proposals closed")
  ]

  const BOUNTIES: seq<Entry> := [
    Entry("Bounties submitted", "gov1ProposalSubmitted", "gov1ProposalSubmitted", "Bounties submitted"),
    Entry("Bounties closed", "gov1ProposalClosed", "gov1ProposalClosed", "Bounties closed")
  ]

  const CHILD_BOUNTIES: seq<Entry> := [
    Entry("Child Bounties submitted", "gov1ProposalSubmitted", "gov1ProposalSubmitted", "Child Bounties submitted"),
    Entry("Child Bounties closed", "gov1ProposalClosed", "gov1ProposalClosed", "Child Bounties closed")
  ]

  const REFERENDUMS_V1: seq<Entry> := [
    Entry("New Referendum submitted", "gov1ProposalSubmitted", "gov1ProposalSubmitted", "New Referendum submitted"),
    Entry("Referendum Voting", "gov1ProposalInVoting", "gov1ProposalInVoting", "Referendum Voting"),
    Entry("Referendum closed", "gov1ProposalClosed", "gov1ProposalClosed", "Referendum closed")
  ]

  const PROPOSAL: seq<Entry> := [
    Entry("New Proposal submitted", "gov1ProposalSubmitted", "gov1ProposalSubmitted", "New Proposal submitted"),
    Entry("Proposal in Voting", "gov1ProposalInVoting", "gov1ProposalInVoting", "Proposal in Voting"),
    Entry("Proposal closed", "gov1ProposalClosed", "gov1ProposalClosed", "Proposal closed")
  ]

  const COUNCIL_MOTION: seq<Entry> := [
    Entry("New Motions submitted", "gov1ProposalSubmitted", "gov1ProposalSubmitted", "New Motions submitted"),
    Entry("Motion in voting", "gov1ProposalInVoting", "gov1ProposalInVoting", "Motion in voting"),
    Entry("Motion closed / retracted", "gov1ProposalClosed", "gov1ProposalClosed", "Motion closed / retracted")
  ]

  /** `allGov1`: the tables by kind. */
  const ALL_GOV1: map<string, seq<Entry>> := map[
    "bounties" := BOUNTIES,
    "childBounties" := CHILD_BOUNTIES,
    "councilMotion" := COUNCIL_MOTION,
    "proposal" := PROPOSAL,
    "referendumsV1" := REFERENDUMS_V1,
    "techCommittee" := TECH_COMMITTEE,
    "tips" := TIPS
  ]

  /** The section titles `titleMapper` knows. */
  const TITLES: set<string> :=
    {"Tips", "Tech Committee", "Bounties", "Child Bounties", "Referendums", "Proposal", "Council Motion"}

  /** `titleMapper`: a section title's kind; `None` (JavaScript's `undefined`)
      for any other title, the switch having no default. */
  function TitleMapper(title: string): Option<string> {
    if title == "Tips" then Some("tips")
    else if title == "Tech Committee" then Some("techCommittee")
    else if title == "Bounties" then Some("bounties")
    else if title == "Child Bounties" then Some("childBounties")
    else if title == "Referendums" then Some("referendumsV1")
    else if title == "Proposal" then Some("proposal")
    else if title == "Council Motion" then Some("councilMotion")
    else None
  }

  /** The options shown for a section title. */
  function EntriesFor(title: string): (r: Option<seq<Entry>>)
    ensures r.Some? <==> TitleMapper(title).Some?
  {
    match TitleMapper(title)
    case None => None
    case Some(kind) => if kind in ALL_GOV1 then Some(ALL_GOV1[kind]) else None
  }

  /** Exactly the seven titles are mapped, each to a kind with a table. */
  lemma MappedTitles(title: string)
    ensures TitleMapper(title).Some? <==> title in TITLES
    ensures TitleMapper(title).Some? ==> TitleMapper(title).value in ALL_GOV1
  {
  }

  /** Distinct titles map to distinct kinds. */
  lemma TitleMapperInjective(s: string, t: string)
    requires TitleMapper(s).Some? && TitleMapper(s) == TitleMapper(t)
    ensures s == t
  {
  }

  /** Every kind of `allGov1` is reached by some title. */
  lemma TitleMapperCovers(kind: string)
    requires kind in ALL_GOV1
    ensures exists title :: title in TITLES && TitleMapper(title) == Some(kind)
  {
    if kind == "tips" { assert TitleMapper("Tips") == Some(kind); }
    else if kind == "techCommittee" { assert TitleMapper("Tech Committee") == Some(kind); }
    else if kind == "bounties" { assert TitleMapper("Bounties") == Some(kind); }
    else if kind == "childBounties" { assert TitleMapper("Child Bounties") == Some(kind); }
    else if kind == "referendumsV1" { assert TitleMapper("Referendums") == Some(kind); }
    else if kind == "proposal" { assert TitleMapper("Proposal") == Some(kind); }
    else { assert TitleMapper("Council Motion") == Some(kind); }
  }

  /** A well-formed option: its label is its value, and it subscribes to one
      of the three Gov1 triggers under that trigger's own preference name. */
  predicate WellFormed(e: Entry) {
    && e.labelText == e.value
    && e.triggerName == e.triggerPreferencesName
    && e.triggerName in {SUBMITTED, IN_VOTING, CLOSED}
  }

  lemma EntriesWellFormed(kind: string, i: int)
    requires kind in ALL_GOV1 && 0 <= i < |ALL_GOV1[kind]|
    ensures WellFormed(ALL_GOV1[kind][i])
  {
  }

  /** Every table opens with the submitted trigger and ends with the closed one. */
  lemma SubmittedFirstClosedLast(kind: string)
    requires kind in ALL_GOV1
    ensures |ALL_GOV1[kind]| >= 2
    ensures ALL_GOV1[kind][0].triggerName == SUBMITTED
    ensures ALL_GOV1[kind][|ALL_GOV1[kind]| - 1].triggerName == CLOSED
  {
  }

  /** Only tips, referenda, proposals and council motions have an in-voting option. */
  lemma InVotingKinds(kind: string)
    requires kind in ALL_GOV1
    ensures (exists i :: 0 <= i < |ALL_GOV1[kind]| && ALL_GOV1[kind][i].triggerName == IN_VOTING)
            <==> kind in {"tips", "referendumsV1", "proposal", "councilMotion"}
  {
    if kind in {"tips", "referendumsV1", "proposal", "councilMotion"} {
      assert ALL_GOV1[kind][1].triggerName == IN_VOTING;
    }
  }
}
