/**
 * The UUID field type's save-time policy: a stored value that counts as
 * empty is replaced by a freshly generated identifier, and any other value
 * is saved as it is.
 *
 * The identifier source `gen_uuid_v4` (utilities/uuid.php) is not part of
 * this model. It is drawn from randomness, so it is represented by the
 * sequence of identifiers it would return: `gen(k)` is the result of its
 * k-th call, counting from zero, and every operation that may call it
 * threads through the number of calls made so far.
 */
module UuidField {
  import opened PhpValues

  /**
   * `gen(k)` is what the k-th call of the identifier source returns. The
   * source is taken to be total: every call returns a string and none
   * raises an error.
   */
  type Generator = nat -> string

  /**
   * The assumption made about the identifier source beyond totality: it
   * never returns the empty string. Nothing about the shape of its output (length,
   * version or variant digits) is assumed or proved.
   */
  ghost predicate YieldsText(gen: Generator) {
    forall k: nat :: |gen(k)| > 0
  }

  /** The `$post_id` argument of the save filter: any PHP value. */
  type PostId = PhpValue

  /** The `$field` argument of the save filter: the field's option array. */
  type FieldSettings = map<string, PhpValue>

  /** An identifier obtained from the source, and the number of calls made once it is obtained. */
  datatype Draw = Draw(id: string, calls: nat)

  /** The value a save stores, and the number of calls made to the identifier source once it is stored. */
  datatype Saved = Saved(value: PhpValue, calls: nat)

  /**
   * `generate_value`: asks the identifier source exactly once and returns
   * its answer, which is text whenever the source's assumption holds.
   */
  function GenerateValue(gen: Generator, calls: nat): (d: Draw)
    ensures d.calls == calls + 1
    ensures d.id == gen(calls)
    ensures YieldsText(gen) ==> d.id != ""
  {
    Draw(gen(calls), calls + 1)
  }

  /** PHP's `isset` on a function parameter: false only for null. */
  predicate Isset(v: PhpValue) {
    !v.Null?
  }

  /**
   * `emptyString`: a value is empty when it is not set or its string form
   * is exactly "". Nothing is trimmed, so the empty values are precisely
   * null, the empty string and false.
   */
  function EmptyString(v: PhpValue): (empty: bool)
    ensures empty <==> (v == Null || v == Str("") || v == Bool(false))
  {
    !(Isset(v) && ToText(v) != "")
  }

  /**
   * `update_value`: an empty value is replaced by one freshly generated
   * identifier; any other value is returned unchanged without asking the
   * source. Neither the post id nor the field settings are consulted.
   */
  function UpdateValue(value: PhpValue, postId: PostId, field: FieldSettings, gen: Generator, calls: nat): (r: Saved)
    ensures !EmptyString(value) ==> r == Saved(value, calls)
    ensures EmptyString(value) ==> r == Saved(Str(gen(calls)), calls + 1)
    ensures YieldsText(gen) ==> !EmptyString(r.value)
  {
    if EmptyString(value) then
      var d := GenerateValue(gen, calls);
      Saved(Str(d.id), d.calls)
    else
      Saved(value, calls)
  }

  /** The `isset` test adds nothing: a value is empty exactly when its string form is "". */
  lemma EmptyStringIsEmptyText(v: PhpValue)
    ensures EmptyString(v) <==> ToText(v) == ""
  {
    EmptyTextExactly(v);
  }

  /** A string counts as empty only when it has no characters at all; whitespace is kept. */
  lemma StringEmptyOnlyWhenNoCharacters(s: string)
    ensures EmptyString(Str(s)) <==> |s| == 0
  {
  }

  /** A save keeps a string of whitespace instead of replacing it with an identifier. */
  lemma WhitespaceIsKept(s: string, postId: PostId, field: FieldSettings, gen: Generator, calls: nat)
    requires |s| > 0
    requires forall k :: 0 <= k < |s| ==> s[k] in {' ', '\t', '\n', '\r'}
    ensures UpdateValue(Str(s), postId, field, gen, calls) == Saved(Str(s), calls)
  {
  }

  /** The integer 0 and the string "0" are not empty, so a save keeps them. */
  lemma ZeroIsKept(postId: PostId, field: FieldSettings, gen: Generator, calls: nat)
    ensures UpdateValue(Int(0), postId, field, gen, calls) == Saved(Int(0), calls)
    ensures UpdateValue(Str("0"), postId, field, gen, calls) == Saved(Str("0"), calls)
  {
  }

  /** Null, "" and false are filled alike: each becomes the source's next identifier. */
  lemma EmptyValuesFillAlike(postId: PostId, field: FieldSettings, gen: Generator, calls: nat)
    ensures UpdateValue(Null, postId, field, gen, calls) == Saved(Str(gen(calls)), calls + 1)
    ensures UpdateValue(Str(""), postId, field, gen, calls) == Saved(Str(gen(calls)), calls + 1)
    ensures UpdateValue(Bool(false), postId, field, gen, calls) == Saved(Str(gen(calls)), calls + 1)
  {
  }

  /** The saved value depends on the stored value and the source only, never on the post id or the field settings. */
  lemma UpdateIgnoresPostAndField(value: PhpValue, postId1: PostId, field1: FieldSettings,
                                  postId2: PostId, field2: FieldSettings, gen: Generator, calls: nat)
    ensures UpdateValue(value, postId1, field1, gen, calls) == UpdateValue(value, postId2, field2, gen, calls)
  {
  }

  /** For a non-empty value the identifier source is not consulted: any two sources give the same save. */
  lemma PopulatedIgnoresGenerator(value: PhpValue, postId: PostId, field: FieldSettings,
                                  gen1: Generator, gen2: Generator, calls: nat)
    requires !EmptyString(value)
    ensures UpdateValue(value, postId, field, gen1, calls) == UpdateValue(value, postId, field, gen2, calls)
  {
  }

  /**
   * Saving twice is saving once: whatever the first save stored is stored
   * again unchanged by a second save, whose post id and settings may differ,
   * and the second save makes no call to the source.
   */
  lemma UpdateIdempotent(value: PhpValue, postId1: PostId, field1: FieldSettings,
                         postId2: PostId, field2: FieldSettings, gen: Generator, calls: nat)
    requires YieldsText(gen)
    ensures var first := UpdateValue(value, postId1, field1, gen, calls);
            UpdateValue(first.value, postId2, field2, gen, first.calls) == first
  {
  }
}
