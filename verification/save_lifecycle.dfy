/**
 * The life of one field slot across the saves of its record: the slot
 * starts empty, the first save fills it, and no later save changes it.
 */
module SaveLifecycle {
  import opened PhpValues
  import opened UuidField

  /** Whether the save filter would fill a slot holding this value. */
  datatype SlotState = Empty | Populated

  function StateOf(v: PhpValue): SlotState {
    if EmptyString(v) then Empty else Populated
  }

  /** One save of the record: the arguments the host passes besides the value. */
  datatype SaveRequest = SaveRequest(postId: PostId, field: FieldSettings)

  /**
   * A single save moves an empty slot to populated and leaves a populated
   * slot exactly as it was: there is no way back to empty and no
   * regeneration of a populated slot.
   */
  lemma SaveIsOneWay(value: PhpValue, postId: PostId, field: FieldSettings, gen: Generator, calls: nat)
    requires YieldsText(gen)
    ensures var r := UpdateValue(value, postId, field, gen, calls);
            && StateOf(r.value) == Populated
            && (StateOf(value) == Populated ==> r == Saved(value, calls))
            && (StateOf(value) == Empty ==> r.calls == calls + 1)
  {
  }

  /**
   * The host saving the same record once per request, feeding each save
   * the value the previous one stored. Returns the value stored after each
   * save and the number of calls made to the identifier source. Every save
   * stores what the first one stored, and the source is asked at most once,
   * and only when the slot started empty.
   */
  method SaveAll(value: PhpValue, saves: seq<SaveRequest>, gen: Generator, calls: nat)
    returns (history: seq<PhpValue>, used: nat)
    requires YieldsText(gen)
    ensures |history| == |saves|
    ensures |saves| > 0 ==>
              forall k :: 0 <= k < |history| ==>
                history[k] == UpdateValue(value, saves[0].postId, saves[0].field, gen, calls).value
    ensures forall k :: 0 <= k < |history| ==> StateOf(history[k]) == Populated
    ensures !EmptyString(value) ==> forall k :: 0 <= k < |history| ==> history[k] == value
    ensures used == (if |saves| > 0 && EmptyString(value) then calls + 1 else calls)
  {
    history := [];
    used := calls;
    var current := value;
    var i := 0;
    while i < |saves|
      invariant 0 <= i <= |saves|
      invariant |history| == i
      invariant i == 0 ==> current == value && used == calls
      invariant i > 0 ==> Saved(current, used) == UpdateValue(value, saves[0].postId, saves[0].field, gen, calls)
      invariant forall k :: 0 <= k < i ==> history[k] == current
    {
      var r := UpdateValue(current, saves[i].postId, saves[i].field, gen, used);
      current, used := r.value, r.calls;
      history := history + [current];
      i := i + 1;
    }
  }
}
