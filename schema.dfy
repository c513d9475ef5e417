/**
 * How a Mongoose schema treats one String path of a document being created:
 * setters declared on the path (`trim`, `lowercase`) run when the value is
 * cast, and `required` is checked on the result.
 */
module Schema {
  import opened Wrappers
  import opened Text

  /**
   * `required: true` on a String path: present and not the empty string.
   * The same test as JavaScript truthiness `if (v)` on an optional string.
   */
  predicate Filled(v: Option<string>) {
    v.Some? && v.value != ""
  }

  /** The `trim: true` setter. */
  function Trimmed(v: Option<string>): (r: Option<string>)
    ensures r.Some? <==> v.Some?
    ensures r.Some? ==> r.value == Trim(v.value)
  {
    match v
    case None => None
    case Some(s) => Some(Trim(s))
  }

  /** The `trim: true, lowercase: true` setters of an e-mail path. */
  function EmailNormalised(v: Option<string>): (r: Option<string>)
    ensures r.Some? <==> v.Some?
    ensures r.Some? ==> r.value == Lower(Trim(v.value))
  {
    match v
    case None => None
    case Some(s) => Some(Lower(Trim(s)))
  }

  /** A trimmed required path accepts exactly the values with a non-white character. */
  lemma FilledTrimmed(v: Option<string>)
    ensures Filled(Trimmed(v)) <==> v.Some? && !AllWhite(v.value)
  {
  }

  /** Setters are idempotent: casting a stored value again changes nothing. */
  lemma SettersIdempotent(v: Option<string>)
    ensures Trimmed(Trimmed(v)) == Trimmed(v)
    ensures EmailNormalised(EmailNormalised(v)) == EmailNormalised(v)
  {
    if v.Some? {
      TrimIdempotent(v.value);
      LowerTrimIdempotent(v.value);
    }
  }

  lemma LowerTrimIdempotent(s: string)
    ensures Lower(Trim(Lower(Trim(s)))) == Lower(Trim(s))
  {
    var t := Trim(s);
    var l := Lower(t);
    // lower-casing ASCII letters never creates or removes white space at the ends
    if l != [] {
      LowerCharKeepsWhite(t[0]);
      LowerCharKeepsWhite(t[|t| - 1]);
    }
    TrimNoop(l);
    LowerIdempotent(t);
  }
}
