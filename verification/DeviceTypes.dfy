/** Device-side records: request descriptors, KV page entries, and C integer remainder. */
module DeviceTypes {

  datatype Status =
    Empty | PrefillReady | PrefillDone | DecodeReady | DraftReady | VerifyReady | CommitReady | Complete | Failed

  datatype RequestFlag = SpeculativeEnabled | PriorityHigh | HasDraft | EosSeen | KvPinned | KvPressure

  /** `RequestDescriptor`; the flag word is a set of flags. */
  datatype Descriptor = Descriptor(
    requestId: int, state: Status, flags: set<RequestFlag>, priority: int,
    promptLen: int, decodePos: int, maxNew: int, eos: int, lastToken: int, outputCount: int,
    draftOffset: int, draftLen: int, acceptedPrefix: int, kvOffset: int, kvPages: int, errorCode: int,
    ema: real, blockSize: int)
  {
    predicate IsDone() { state == Complete || state == Failed }
  }

  datatype PageState = FreePage | DraftPage | CommittedPage | EvictablePage | PinnedPage

  datatype PageFlag = Resident | Draft | Committed | Pinned | Evictable | Selected

  /** `KVPageEntry`; scores are exact integers here. */
  datatype PageEntry = PageEntry(
    pageId: int, requestId: int, layerId: int, startToken: int, tokenCount: int,
    state: PageState, flags: set<PageFlag>, score: int, selected: bool, lastSelectedStep: int, sparseRank: int)

  function MarkCommitted(e: PageEntry): PageEntry {
    e.(state := CommittedPage, flags := e.flags + {Committed, Resident} - {Draft})
  }

  function MarkEvictable(e: PageEntry): PageEntry {
    e.(state := EvictablePage, flags := e.flags + {Evictable} - {Pinned})
  }

  function MarkPinned(e: PageEntry): PageEntry { e.(state := PinnedPage, flags := e.flags + {Pinned}) }

  function MarkResident(e: PageEntry): PageEntry { e.(flags := e.flags + {Resident}) }

  function ClearSelected(e: PageEntry): PageEntry {
    e.(selected := false, sparseRank := -1, flags := e.flags - {Selected})
  }

  function MarkSelected(e: PageEntry, score: int, step: int, rank: int): PageEntry {
    e.(score := score, selected := true, lastSelectedStep := step, sparseRank := rank, flags := e.flags + {Selected})
  }

  /** C's `%`: the remainder has the sign of the dividend. */
  function Rem(a: int, b: int): (r: int)
    requires b > 0
    ensures -b < r < b && (a >= 0 ==> 0 <= r) && (a <= 0 ==> r <= 0)
    ensures a >= 0 ==> r == a % b
  {
    if a >= 0 then a % b else -((-a) % b)
  }
}
