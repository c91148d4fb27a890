/**
 * The truncating field helpers of the struct-based client: a value longer
 * than a field's limit is cut to the limit, and `checkLength` rejects an
 * over-long value where truncation is not wanted. Both copies of this file in
 * the repository (the one under Plugins, which also has the `Option<string>`
 * overload of `add`, and the one beside the client) contain this same code.
 */
module FormExts {
  import opened Common

  /** A `Dictionary<string, string>` holding a form that is being built. */
  class FormDictionary {
    var entries: Dict<string, string>

    ghost predicate Valid()
      reads this
    {
      DistinctKeys(entries)
    }

    constructor ()
      ensures Valid() && entries == []
    {
      entries := [];
    }

    /** `Dictionary.Add`: appends the entry, or throws when the key is already present. */
    method Add(key: string, value: string) returns (r: Outcome)
      requires Valid()
      modifies this
      ensures Valid()
      ensures r == DictAdd(old(entries), key, value).ToOutcome()
      ensures entries == if r.Pass? then DictAdd(old(entries), key, value).value else old(entries)
    {
      DictAddSpec(entries, key, value);
      if HasKey(entries, key) {
        r := Fail(DuplicateKey(key));
      } else {
        DistinctKeysAppend(entries, [(key, value)]);
        entries := entries + [(key, value)];
        r := Pass;
      }
    }
  }

  /** `Dictionary.Add` on the value of a dictionary. */
  function DictAdd(d: Dict<string, string>, key: string, value: string): Result<Dict<string, string>>
  {
    if HasKey(d, key) then Err(DuplicateKey(key)) else Ok(d + [(key, value)])
  }

  /**
   * What `Dictionary.Add` promises: it succeeds exactly when the key is not
   * yet present, appending the entry; otherwise it throws for that key.
   */
  lemma DictAddSpec(d: Dict<string, string>, key: string, value: string)
    ensures DictAdd(d, key, value).Ok? <==> key !in Keys(d)
    ensures DictAdd(d, key, value).Err? ==> DictAdd(d, key, value).error == DuplicateKey(key)
    ensures DictAdd(d, key, value).Ok? ==> DictAdd(d, key, value).value == d + [(key, value)]
  {
    HasKeyKeys(d, key);
  }

  /** A key that no entry has is added at the end. */
  lemma DictAddNew(d: Dict<string, string>, key: string, value: string)
    requires forall i :: 0 <= i < |d| ==> d[i].0 != key
    ensures DictAdd(d, key, value) == Ok(d + [(key, value)])
  {
  }

  function Min(a: int, b: int): int { if a <= b then a else b }

  /** `fixLength`: cut `value` to at most `maxLength` characters; a negative limit means no limit. */
  function FixLength(value: string, maxLength: int): (r: string)
    ensures maxLength < 0 ==> r == value
    ensures maxLength >= 0 ==> |r| == Min(|value|, maxLength)
    ensures r <= value
  {
    if maxLength < 0 then value
    else if |value| <= maxLength then value
    else value[..maxLength]
  }

  /** A limit is applied once: truncating again changes nothing. */
  lemma FixLengthIdempotent(value: string, maxLength: int)
    ensures FixLength(FixLength(value, maxLength), maxLength) == FixLength(value, maxLength)
  {
  }

  /** A value already within the limit is left as it is. */
  lemma FixLengthWithinLimit(value: string, maxLength: int)
    requires |value| <= maxLength
    ensures FixLength(value, maxLength) == value
  {
  }

  /** `checkLength`: throws when a limit is set (non-zero) and the value exceeds it. */
  function CheckLength(value: string, argName: string, maxLength: int): (r: Outcome)
    ensures r.Fail? <==> maxLength != 0 && |value| > maxLength
    ensures r.Fail? ==> r.error == ArgumentTooLong(argName, maxLength)
  {
    if maxLength != 0 && |value| > maxLength then Fail(ArgumentTooLong(argName, maxLength)) else Pass
  }

  /** A limit of zero switches the check off. */
  lemma CheckLengthZeroDisables(value: string, argName: string)
    ensures CheckLength(value, argName, 0) == Pass
  {
  }

  /**
   * `add` (both overloads, a null string and an empty `Option` being `None`):
   * a missing value adds nothing, a present one is added truncated.
   */
  function AddSpec(d: Dict<string, string>, key: string, value: Option<string>, maxLength: int): Result<Dict<string, string>> {
    if value.None? then Ok(d) else DictAdd(d, key, FixLength(value.value, maxLength))
  }

  /**
   * What `add` does to a form: it fails exactly when a present value meets a key
   * already in the form; otherwise it keeps every earlier entry in place, maps
   * `key` to the truncated value and leaves every other lookup as it was.
   */
  lemma AddInsertsOnlyKey(d: Dict<string, string>, key: string, value: Option<string>, maxLength: int, k: string)
    requires DistinctKeys(d)
    ensures AddSpec(d, key, value, maxLength).Ok? <==> value.None? || key !in Keys(d)
    ensures value.None? ==> AddSpec(d, key, value, maxLength) == Ok(d)
    ensures AddSpec(d, key, value, maxLength).Err? ==> AddSpec(d, key, value, maxLength).error == DuplicateKey(key)
    ensures AddSpec(d, key, value, maxLength).Ok? ==>
      var d' := AddSpec(d, key, value, maxLength).value;
      && d <= d'
      && DistinctKeys(d')
      && Lookup(d', k) == if k == key && value.Some? then Some(FixLength(value.value, maxLength)) else Lookup(d, k)
  {
    if value.Some? {
      DictAddSpec(d, key, FixLength(value.value, maxLength));
    }
    if value.Some? && key !in Keys(d) {
      var e := [(key, FixLength(value.value, maxLength))];
      LookupAppend(d, e, k);
      DistinctKeysAppend(d, e);
    }
  }

  /** `add` on a form object: the state after the call is the one `AddSpec` describes. */
  method Add(form: FormDictionary, key: string, value: Option<string>, maxLength: int) returns (r: Outcome)
    requires form.Valid()
    modifies form
    ensures form.Valid()
    ensures r == AddSpec(old(form.entries), key, value, maxLength).ToOutcome()
    ensures form.entries == if r.Pass? then AddSpec(old(form.entries), key, value, maxLength).value else old(form.entries)
  {
    if value.None? {
      return Pass;
    }
    r := form.Add(key, FixLength(value.value, maxLength));
  }
}
