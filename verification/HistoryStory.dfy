/** Two passports that were published twice: their newest versions have one hash, their histories differ. */
module HistoryStory {
  import opened CanonicalJson
  import opened Applicability
  import opened PassportTables
  import opened PassportSteps
  import opened PassportRuns
  import opened PassportHistory
  import opened PassportStory
  import CO = CanonicalOrder
  import SM = StateMachine

  /** A reading arrives, so the passport is out of date. */
  function Outdated(s: Story): Db {
    var item := Out(s).items[0];
    Out(s).(items := map[0 := item.(state := SM.Updated, readings := [Null])])
  }

  function Reissued(s: Story, later: string): Db {
    var doc := NextDocument(s.env, Outdated(s), 0, later, "rules", ListedLinks);
    Outdated(s).(items := map[0 := WithVersion(s.env, Outdated(s).items[0], doc, s.now)])
  }

  lemma ReadingArrives(s: Story)
    ensures Ingest(Out(s), 0, [Null]) == Done(Outdated(s))
  {
    hide NextVersion, Project, NextDocument;
    var item := Out(s).items[0];
    assert item.readings + [Null] == [Null] && InvalidatedItem(item).state == SM.Updated;
    assert Out(s).items[0 := item.(state := SM.Updated, readings := [Null])] == Outdated(s).items;
  }

  lemma PublishAgain(s: Story, later: string)
    requires Apt(s)
    ensures Publish(s.env, Outdated(s), 0, s.now, later, "rules", ListedLinks) == Done(Reissued(s, later))
  {
    hide Publishable, Complete, Reviewed, ValuesAt, NextDocument, ListedLinks, LinksAt, NextVersion, Project, Apt;
    IsPublishable(s, 14);
    SamePublishable(s.env, StateAt(s, 14), Outdated(s), 0, s.now);
    assert !UpiTaken(Outdated(s), 0, UpiOf(s.env, Outdated(s).items[0]));
  }

  lemma FirstDocumentIsFirst(s: Story, later: string)
    ensures var versions := Reissued(s, later).items[0].versions;
            && versions == VersionsOf(Reissued(s, later), 0) && |versions| == 2
            && versions[0].document == FirstDocument(s)
            && versions[1].document == NextDocument(s.env, Outdated(s), 0, later, "rules", ListedLinks)
            && versions[0].sha256 == CO.HashJson(DocumentJson(s.env, versions[0].document))
            && versions[1].sha256 == CO.HashJson(DocumentJson(s.env, versions[1].document))
  {
    hide Project, NextDocument, DocumentJson;
  }

  /** What is published the second time does not depend on when the first time was. */
  lemma SecondIsTheSame(s: Story, other: string, later: string)
    ensures var t := s.(issued := other);
            NextDocument(s.env, Outdated(t), 0, later, "rules", ListedLinks) ==
            NextDocument(s.env, Outdated(s), 0, later, "rules", ListedLinks)
  {
    hide Project, NextVersion, DocValues;
    assert StateAt(s.(issued := other), 14) == StateAt(s, 14);
  }

  lemma TwoMoreSteps(s: Story, later: string) returns (states: seq<Db>, steps: seq<Step>)
    requires Apt(s)
    ensures IsRun(s.env, states, steps) && |states| == 18 && states[17] == Reissued(s, later)
  {
    hide Apply, Enabled, Out, Outdated, Reissued, StepAt;
    var first := StoryIsARun(s);
    LaterSteps(s, later);
    var more := [StepIngest(0, [Null]), StepPublish(0, s.now, later, "rules", ListedLinks)];
    states, steps := first + [Outdated(s), Reissued(s, later)], StepsTo(s) + more;
    forall i | 0 <= i < 17 ensures Enabled(states[i], steps[i]) && states[i + 1] == Apply(s.env, states[i], steps[i]) {
      if i < 15 {
        assert steps[i] == StepsTo(s)[i];
        assert states[i] == first[i] && states[i + 1] == first[i + 1];
      }
    }
  }

  lemma LaterSteps(s: Story, later: string)
    requires Apt(s)
    ensures Leads(s.env, Out(s), StepIngest(0, [Null]), Outdated(s))
    ensures Leads(s.env, Outdated(s), StepPublish(0, s.now, later, "rules", ListedLinks), Reissued(s, later))
  {
    hide CreateValue, ValidateValue, RejectValue, Accept, Submit, ReviewApplicability, RejectEvidence, LinkEvidence,
        Publishable;
    hide OpenPortal, ChangeEvidence, AddModel, AddEvidence, AddRequest, AddItem, NextDocument, Publish, Ingest,
        RecordEvent;
    hide Validate, Reissued, Apt, WithVersion, ListsLinks, ListedLinks, LinksAt, ValuesAt;
    ReadingArrives(s);
    PublishAgain(s, later);
    LinksAreListed();
  }

  lemma DocumentsDiffer(env: Env, a: Document, b: Document, isUuid: string -> bool)
    requires SpellsWell(env, isUuid) && DocOk(a) && DocOk(b) && a.generatedAt != b.generatedAt
    ensures CO.HashJson(DocumentJson(env, a)) != CO.HashJson(DocumentJson(env, b))
  {
    hide IsNumber, BatteryJson, ValuesJson;
    DocumentJsonOk(env, a, isUuid);
    DocumentJsonOk(env, b, isUuid);
    DocumentKeysDistinct(env, a);
    DocumentKeysDistinct(env, b);
    CO.MeaningAt(DocumentJson(env, a).members, DocumentJson(env, a).members[2]);
    CO.MeaningAt(DocumentJson(env, b).members, DocumentJson(env, b).members[2]);
    CO.CanonicalIffSame(DocumentJson(env, a), DocumentJson(env, b));
  }

  /**
   For any two times at which the first version may have been issued there are two
   runs whose passports end with the same hash and began with different documents.
   */
  lemma NewestHashIsNotHistory(s: Story, other: string, later: string, isUuid: string -> bool)
    returns (a: seq<Db>, aSteps: seq<Step>, b: seq<Db>, bSteps: seq<Step>)
    requires Apt(s) && SpellsWell(s.env, isUuid) && other != s.issued
    ensures IsRun(s.env, a, aSteps) && IsRun(s.env, b, bSteps) && |a| == |b| == 18
    ensures |VersionsOf(a[17], 0)| == |VersionsOf(b[17], 0)| == 2
    ensures VersionsOf(a[17], 0)[1].sha256 == VersionsOf(b[17], 0)[1].sha256
    ensures VersionsOf(a[17], 0)[0].sha256 != VersionsOf(b[17], 0)[0].sha256
  {
    hide IsRun, Reissued, Outdated, FirstDocument, SpellsWell, Apply, DocumentJson;
    var t := s.(issued := other);
    assert Apt(t);
    a, aSteps := TwoMoreSteps(s, later);
    b, bSteps := TwoMoreSteps(t, later);
    FirstDocumentIsFirst(s, later);
    FirstDocumentIsFirst(t, later);
    SecondIsTheSame(s, other, later);
    VersionDocumentOk(s.env, a, aSteps, 17, 0, 0);
    VersionDocumentOk(s.env, b, bSteps, 17, 0, 0);
    FirstIssued(s);
    FirstIssued(t);
    DocumentsDiffer(s.env, FirstDocument(s), FirstDocument(t), isUuid);
  }

  lemma FirstIssued(s: Story)
    ensures FirstDocument(s).generatedAt == s.issued
  {
    hide DocValues;
  }
}
