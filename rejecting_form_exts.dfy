/**
 * The field helper of the two registry-based clients: a value longer than
 * its limit is rejected with an exception instead of being truncated, and
 * fields go into a Unity `WWWForm` (`Common.WwwForm`).
 */
module RejectingFormExts {
  import opened Common
  import FormExts

  /**
   * `checkLength` of this generation is the same check as the truncating
   * generation's (only the exception text differs): a limit of 0 means no limit.
   */
  function CheckLength(value: string, argName: string, maxLength: int): Outcome {
    FormExts.CheckLength(value, argName, maxLength)
  }

  /** Within the limit the check always passes. */
  lemma CheckLengthWithinLimit(value: string, argName: string, maxLength: int)
    requires |value| <= maxLength
    ensures CheckLength(value, argName, maxLength) == Pass
  {
  }

  /** `add(argName, value, googleName, maxLength)` on the list of fields. */
  function AddSpec(fields: seq<(string, string)>, argName: string, value: Option<string>,
                   googleName: string, maxLength: int): Result<seq<(string, string)>>
  {
    if value.None? then Ok(fields)
    else match CheckLength(value.value, argName, maxLength)
      case Fail(e) => Err(e)
      case Pass => Ok(fields + [(googleName, value.value)])
  }

  /**
   * What `add` promises: a null value appends nothing; a value within the limit
   * (any value, when the limit is 0) appends exactly `(googleName, value)`,
   * unmodified; an over-long value fails and appends nothing.
   */
  lemma AddAppendsOrRejects(fields: seq<(string, string)>, argName: string, value: Option<string>,
                            googleName: string, maxLength: int)
    ensures value.None? ==> AddSpec(fields, argName, value, googleName, maxLength) == Ok(fields)
    ensures value.Some? && (maxLength == 0 || |value.value| <= maxLength) ==>
      AddSpec(fields, argName, value, googleName, maxLength) == Ok(fields + [(googleName, value.value)])
    ensures value.Some? && maxLength != 0 && |value.value| > maxLength ==>
      AddSpec(fields, argName, value, googleName, maxLength) == Err(ArgumentTooLong(argName, maxLength))
  {
  }

  /** `add` on a form object: checks first, then appends; a failed check leaves the form as it was. */
  method Add(form: WwwForm, argName: string, value: Option<string>, googleName: string, maxLength: int)
    returns (r: Outcome)
    modifies form
    ensures r == AddSpec(old(form.fields), argName, value, googleName, maxLength).ToOutcome()
    ensures form.fields == if r.Pass? then AddSpec(old(form.fields), argName, value, googleName, maxLength).value
                           else old(form.fields)
  {
    if value.None? {
      return Pass;
    }
    r := CheckLength(value.value, argName, maxLength);
    if r.Fail? {
      return;
    }
    form.AddField(googleName, value.value);
  }
}
