// Meeting artifacts, as services/conversation/models.py stores them. An absent
// optional text is the empty string.

module Artifacts {
  import opened Text

  datatype ArtifactType =
    | Task | Note | Decision | Commitment | Deadline | FollowUp | Question | Answer | Idea | Risk | Blocker
    | Requirement | Fact | Preference | Reference

  datatype LifecycleStatus =
    | Provisional | Proposed | Active | Confirmed | Modified | Assigned | Blocked | Superseded | Completed
    | Cancelled | Rejected | Merged | Unresolved

  datatype ResolutionKind = New | Update | Duplicate | Related | Contradiction | Completion

  datatype ReconcileAction =
    | CreateNew | UpdateExisting | CompleteExisting | CancelExisting | SupersedeExisting | RelatedButDistinct

  datatype Operation = NoOperation | OpCreate | OpUpdate | OpComplete | OpCancel | OpNoAction | OpNeedsConfirmation

  datatype Span = Span(sequenceStart: int, sequenceEnd: int, text: string)

  datatype HistoryEntry = HistoryEntry(
    windowId: string,
    resolution: ResolutionKind,
    change: string,
    previousContent: string,
    evidence: seq<Span>,
    action: Option<ReconcileAction>
  )

  datatype Artifact = Artifact(
    id: string,
    artifactType: ArtifactType,
    title: string,
    content: string,
    ownerText: string,
    ownerUserId: string,
    dueDateText: string,
    dueDateResolved: string,
    dueDateStatus: string,
    topic: string,
    semanticHint: string,
    relatedIds: seq<string>,
    confidence: real,
    status: LifecycleStatus,
    resolution: ResolutionKind,
    windowId: string,
    windowIds: seq<string>,
    chunkIds: seq<int>,
    startIndex: Option<int>,
    endIndex: Option<int>,
    evidence: seq<Span>,
    supersededBy: string,
    supersedes: string,
    reason: string,
    history: seq<HistoryEntry>,
    needsConfirmation: bool,
    operation: Operation
  )

  // Text normalisation and word splitting, of which only equality matters here.
  datatype Lexicon = Lexicon(normalize: string -> string, tokens: string -> set<string>)

  function Or(a: string, b: string): string {
    if a != "" then a else b
  }
}
