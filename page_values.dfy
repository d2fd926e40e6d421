/**
 * The values of the image page (app/page.tsx) and its pure helpers:
 * the job status, the generation parameters with their normalisation,
 * history entries with the two history updaters, the status label and
 * the elapsed-time formatter.
 */
module PageValues {
  import opened Wrappers
  import opened JsText

  /* ---------- Status ---------- */

  /**
   * The page's status cell. The page compares statuses as strings and copies
   * whatever status string a poll reply carries, so a status outside the six
   * known names (the status route's "PENDING", say) is kept as `Other`.
   */
  datatype Status = Idle | Queued | InProgress | Completed | Failed | Cancelled | Other(name: string)

  function StatusName(st: Status): string {
    match st
    case Idle => "IDLE"
    case Queued => "QUEUED"
    case InProgress => "IN_PROGRESS"
    case Completed => "COMPLETED"
    case Failed => "FAILED"
    case Cancelled => "CANCELLED"
    case Other(n) => n
  }

  predicate IsKnownName(n: string) {
    n == "IDLE" || n == "QUEUED" || n == "IN_PROGRESS" || n == "COMPLETED" || n == "FAILED" || n == "CANCELLED"
  }

  /** `Other` is used only for names that are none of the six. */
  predicate WellFormedStatus(st: Status) {
    st.Other? ==> !IsKnownName(st.name)
  }

  /** The status a status string denotes, as the page's string comparisons read it. */
  function ParseStatus(n: string): (st: Status)
    ensures WellFormedStatus(st) && StatusName(st) == n
  {
    if n == "IDLE" then Idle
    else if n == "QUEUED" then Queued
    else if n == "IN_PROGRESS" then InProgress
    else if n == "COMPLETED" then Completed
    else if n == "FAILED" then Failed
    else if n == "CANCELLED" then Cancelled
    else Other(n)
  }

  /** Names and statuses are in one-to-one correspondence. */
  lemma ParseStatusName(st: Status)
    requires WellFormedStatus(st)
    ensures ParseStatus(StatusName(st)) == st
  {
  }

  /** `statusLabel`: the text shown for a status; an unknown status is shown as its own name. */
  function StatusLabel(st: Status): (shown: string)
    requires WellFormedStatus(st)
    ensures st.Other? ==> shown == st.name
    ensures !st.Other? ==> StatusOfLabel(shown) == Some(st)
  {
    match st
    case Idle => "Idle"
    case Queued => "Queued"
    case InProgress => "Generating"
    case Completed => "Completed"
    case Failed => "Failed"
    case Cancelled => "Cancelled"
    case Other(n) => n
  }

  /** The known status a label stands for, if any: the inverse of `StatusLabel`. */
  function StatusOfLabel(text: string): Option<Status> {
    if text == "Idle" then Some(Idle)
    else if text == "Queued" then Some(Queued)
    else if text == "Generating" then Some(InProgress)
    else if text == "Completed" then Some(Completed)
    else if text == "Failed" then Some(Failed)
    else if text == "Cancelled" then Some(Cancelled)
    else None
  }

  /* ---------- Parameters ---------- */

  datatype Aspect = Square | FourThree | ThreeFour | SixteenNine | NineSixteen

  /**
   * `UiParams`. `numImages` and `format` have the single values 1 and "png"
   * and are therefore not stored; `seed == None` stands for the empty string.
   */
  datatype UiParams = UiParams(aspect: Aspect, steps: int, guidance: int, seed: Option<int>)

  const DefaultParams := UiParams(Square, 30, 7, None)

  const MaxSeed := 2_147_483_647

  /** `clamp(n, min, max)`, that is `Math.max(min, Math.min(max, n))`. */
  function Clamp(n: int, lo: int, hi: int): (r: int)
    ensures lo <= hi ==> lo <= r <= hi
    ensures lo <= n <= hi ==> r == n
    ensures lo <= hi && n < lo ==> r == lo
    ensures lo <= hi && n > hi ==> r == hi
  {
    var m := if n < hi then n else hi;
    if lo > m then lo else m
  }

  /** `normalizedParams`: a falsy (zero) steps or guidance falls back to 30 or 7, then each is clamped. */
  function NormalizeParams(p: UiParams): (q: UiParams)
    ensures q.aspect == p.aspect
    ensures 10 <= q.steps <= 80 && 1 <= q.guidance <= 20
    ensures p.steps == 0 ==> q.steps == 30
    ensures p.guidance == 0 ==> q.guidance == 7
    ensures 10 <= p.steps <= 80 ==> q.steps == p.steps
    ensures 1 <= p.guidance <= 20 ==> q.guidance == p.guidance
    ensures p.steps > 80 ==> q.steps == 80
    ensures p.steps < 10 && p.steps != 0 ==> q.steps == 10
    ensures p.guidance > 20 ==> q.guidance == 20
    ensures p.guidance < 1 && p.guidance != 0 ==> q.guidance == 1
    ensures p.seed.Some? && p.seed.value < 0 ==> q.seed == Some(0)
    ensures p.seed.Some? && p.seed.value > MaxSeed ==> q.seed == Some(MaxSeed)
    ensures q.seed.None? <==> p.seed.None?
    ensures q.seed.Some? ==> 0 <= q.seed.value <= MaxSeed
    ensures p.seed.Some? && 0 <= p.seed.value <= MaxSeed ==> q.seed == p.seed
  {
    UiParams(
      p.aspect,
      Clamp(if p.steps == 0 then 30 else p.steps, 10, 80),
      Clamp(if p.guidance == 0 then 7 else p.guidance, 1, 20),
      if p.seed.None? then None else Some(Clamp(p.seed.value, 0, MaxSeed)))
  }

  /** Normalised parameters are left alone by a second normalisation. */
  lemma NormalizeParamsIdempotent(p: UiParams)
    ensures NormalizeParams(NormalizeParams(p)) == NormalizeParams(p)
  {
  }

  /* ---------- Elapsed time ---------- */

  /**
   * `formatTime(ms)`: whole seconds below a minute as "<s>s", otherwise
   * "<m>m <r>s" where m minutes and r seconds make up the whole seconds.
   */
  function FormatTime(ms: int): (text: string)
    ensures ms / 1000 < 60 ==> text == IntToString(ms / 1000) + "s"
    ensures ms / 1000 >= 60 ==> exists m: nat, r: nat ::
      r < 60 && m * 60 + r == ms / 1000 && text == NatToString(m) + "m " + NatToString(r) + "s"
  {
    var s := ms / 1000;
    if s < 60 then IntToString(s) + "s"
    else
      var m := s / 60;
      var r := s % 60;
      IntToString(m) + "m " + IntToString(r) + "s"
  }

  /* ---------- History ---------- */

  const HistoryLimit := 12

  datatype HistoryItem = HistoryItem(
    id: string,
    createdAt: int,
    prompt: string,
    negativePrompt: string,
    imageDataUrl: Option<string>,
    status: Status,
    error: Option<string>,
    params: UiParams)

  /** The fields a `Partial<HistoryItem>` patch may set; `None` leaves a field as it is. */
  datatype HistoryPatch = HistoryPatch(status: Option<Status>, error: Option<string>, imageDataUrl: Option<string>)

  /** `{ ...h, ...patch }` */
  function ApplyPatch(h: HistoryItem, patch: HistoryPatch): (g: HistoryItem)
    ensures g.id == h.id && g.createdAt == h.createdAt && g.prompt == h.prompt
    ensures g.negativePrompt == h.negativePrompt && g.params == h.params
    ensures g.status == patch.status.GetOr(h.status)
    ensures g.error == if patch.error.Some? then patch.error else h.error
    ensures g.imageDataUrl == if patch.imageDataUrl.Some? then patch.imageDataUrl else h.imageDataUrl
  {
    h.(status := patch.status.GetOr(h.status),
       error := if patch.error.Some? then patch.error else h.error,
       imageDataUrl := if patch.imageDataUrl.Some? then patch.imageDataUrl else h.imageDataUrl)
  }

  function Min(a: int, b: int): int { if a < b then a else b }

  /** `pushHistory`: `[item, ...prev].slice(0, 12)`. */
  function PushHistory(prev: seq<HistoryItem>, item: HistoryItem): (r: seq<HistoryItem>)
    ensures |r| == Min(|prev| + 1, HistoryLimit)
    ensures r[0] == item
    ensures r[1..] == prev[..Min(|prev|, HistoryLimit - 1)]
  {
    ([item] + prev)[..Min(|prev| + 1, HistoryLimit)]
  }

  /** `updateHistoryItem`: patch every entry whose id matches, keep the others. */
  function UpdateHistoryItem(prev: seq<HistoryItem>, id: string, patch: HistoryPatch): (r: seq<HistoryItem>)
    ensures |r| == |prev|
    ensures forall i :: 0 <= i < |prev| && prev[i].id != id ==> r[i] == prev[i]
    ensures forall i :: 0 <= i < |prev| && prev[i].id == id ==> r[i] == ApplyPatch(prev[i], patch)
  {
    seq(|prev|, i requires 0 <= i < |prev| => if prev[i].id == id then ApplyPatch(prev[i], patch) else prev[i])
  }

  /** The entries, one id per entry, in list order. */
  function Ids(hs: seq<HistoryItem>): (ids: seq<string>)
    ensures |ids| == |hs| && forall i :: 0 <= i < |hs| ==> ids[i] == hs[i].id
  {
    seq(|hs|, i requires 0 <= i < |hs| => hs[i].id)
  }

  /** Patching keeps every entry in its place: the ids, in order, are unchanged. */
  lemma UpdateHistoryItemKeepsIds(prev: seq<HistoryItem>, id: string, patch: HistoryPatch)
    ensures Ids(UpdateHistoryItem(prev, id, patch)) == Ids(prev)
  {
  }

  /** Applying the same patch a second time changes nothing. */
  lemma UpdateHistoryItemIdempotent(prev: seq<HistoryItem>, id: string, patch: HistoryPatch)
    ensures UpdateHistoryItem(UpdateHistoryItem(prev, id, patch), id, patch) == UpdateHistoryItem(prev, id, patch)
  {
  }

  /** Pushing a new entry and then patching it is the same as pushing the patched entry, when the id is new. */
  lemma PatchAfterPush(prev: seq<HistoryItem>, item: HistoryItem, patch: HistoryPatch)
    requires forall i :: 0 <= i < |prev| ==> prev[i].id != item.id
    ensures UpdateHistoryItem(PushHistory(prev, item), item.id, patch) == PushHistory(prev, ApplyPatch(item, patch))
  {
  }

  /** Pushes `items` one after the other, first element first. */
  function PushAll(prev: seq<HistoryItem>, items: seq<HistoryItem>): seq<HistoryItem>
    decreases |items|
  {
    if items == [] then prev else PushAll(PushHistory(prev, items[0]), items[1..])
  }

  function Reverse<T>(s: seq<T>): (r: seq<T>)
    ensures |r| == |s| && forall i :: 0 <= i < |s| ==> r[i] == s[|s| - 1 - i]
  {
    if s == [] then [] else Reverse(s[1..]) + [s[0]]
  }

  /**
   * However many entries are pushed, the history is the twelve newest,
   * newest first: the oldest entries are the ones evicted.
   */
  lemma {:induction false} PushAllKeepsNewest(prev: seq<HistoryItem>, items: seq<HistoryItem>)
    requires |prev| <= HistoryLimit
    ensures PushAll(prev, items) == (Reverse(items) + prev)[..Min(|items| + |prev|, HistoryLimit)]
    decreases |items|
  {
    if items != [] {
      var next := PushHistory(prev, items[0]);
      PushAllKeepsNewest(next, items[1..]);
      var k := Min(|items| + |prev|, HistoryLimit);
      var lhs := (Reverse(items[1..]) + next)[..Min(|items| - 1 + |next|, HistoryLimit)];
      assert Min(|items| - 1 + |next|, HistoryLimit) == k;
      assert |lhs| == k;
      forall i | 0 <= i < k ensures lhs[i] == (Reverse(items) + prev)[i] {
        if i < |items| - 1 {
          assert lhs[i] == items[1..][|items| - 2 - i];
        } else if i == |items| - 1 {
          assert lhs[i] == next[0];
        } else {
          assert lhs[i] == next[i - (|items| - 1)];
          assert next[i - (|items| - 1)] == next[1..][i - |items|];
        }
      }
      assert lhs == (Reverse(items) + prev)[..k];
    }
  }

  /** With twelve entries, a thirteenth evicts the oldest one and shifts the rest down by one. */
  lemma PushEvictsOldest(prev: seq<HistoryItem>, item: HistoryItem)
    requires |prev| == HistoryLimit
    ensures PushHistory(prev, item) == [item] + prev[..HistoryLimit - 1]
  {
  }
}
