/**
 * The contact form: three text fields, client-side validation with one
 * message per field, a submission that posts the form and then shows a
 * success or an error banner, and a timer that hides the success banner.
 *
 * The network reply is a parameter of `CompleteSubmit`; the five-second
 * timer is the explicit event `TimerFires`. Strings are sequences of
 * characters; whitespace is the set that JavaScript's `trim` and the
 * regular-expression class `\s` both use.
 */
module ContactForm {
  import opened Wrappers

  // ---------------------------------------------------------------------
  // Whitespace and trim
  // ---------------------------------------------------------------------

  /**
   * ECMAScript white space and line terminators: tab, line feed, vertical
   * tab, form feed, carriage return, space, no-break space, the Unicode
   * space separators, the line and paragraph separators, and the byte-order
   * mark.
   */
  predicate IsWhitespace(c: char)
  {
    || ('\t' <= c <= '\r') || c == ' ' || c == '\U{A0}' || c == '\U{1680}'
    || ('\U{2000}' <= c <= '\U{200A}') || c == '\U{2028}' || c == '\U{2029}'
    || c == '\U{202F}' || c == '\U{205F}' || c == '\U{3000}' || c == '\U{FEFF}'
  }

  predicate AllWhitespace(s: seq<char>)
  {
    forall k :: 0 <= k < |s| ==> IsWhitespace(s[k])
  }

  /** The length of the whitespace run at the front of `s`. */
  function LeadingWhitespace(s: seq<char>): (n: nat)
    ensures n <= |s|
    ensures forall k :: 0 <= k < n ==> IsWhitespace(s[k])
    ensures n < |s| ==> !IsWhitespace(s[n])
  {
    if |s| > 0 && IsWhitespace(s[0]) then 1 + LeadingWhitespace(s[1..]) else 0
  }

  /** The length of the whitespace run at the back of `s`. */
  function TrailingWhitespace(s: seq<char>): (n: nat)
    ensures n <= |s|
    ensures forall k :: |s| - n <= k < |s| ==> IsWhitespace(s[k])
    ensures n < |s| ==> !IsWhitespace(s[|s| - n - 1])
  {
    if |s| > 0 && IsWhitespace(s[|s| - 1]) then 1 + TrailingWhitespace(s[..|s| - 1]) else 0
  }

  /**
   * The slice `trim` keeps: whitespace only outside it, and a slice that is
   * either empty (the whole string is whitespace) or starts and ends with a
   * non-whitespace character.
   */
  function TrimBounds(s: seq<char>): (b: (nat, nat))
    ensures b.0 <= b.1 <= |s|
    ensures forall k :: 0 <= k < b.0 ==> IsWhitespace(s[k])
    ensures forall k :: b.1 <= k < |s| ==> IsWhitespace(s[k])
    ensures b.0 < b.1 ==> !IsWhitespace(s[b.0]) && !IsWhitespace(s[b.1 - 1])
    ensures b.0 == b.1 <==> AllWhitespace(s)
  {
    var lo := LeadingWhitespace(s);
    var t := s[lo..];
    var n := TrailingWhitespace(t);
    assert lo < |s| ==> t[0] == s[lo] && !IsWhitespace(t[0]) && n < |t|;
    TrailingShift(s, lo, n);
    (lo, |s| - n)
  }

  /** A whitespace run at the back of `s[lo..]` is one at the back of `s`. */
  lemma TrailingShift(s: seq<char>, lo: nat, n: nat)
    requires lo <= |s| && n <= |s| - lo
    requires forall k :: |s| - lo - n <= k < |s| - lo ==> IsWhitespace(s[lo..][k])
    ensures forall k :: |s| - n <= k < |s| ==> IsWhitespace(s[k])
  {
    forall k | |s| - n <= k < |s|
      ensures IsWhitespace(s[k])
    {
      assert s[k] == s[lo..][k - lo];
    }
  }

  /** `String.prototype.trim`. */
  function Trim(s: seq<char>): (r: seq<char>)
    ensures |r| <= |s|
    ensures |r| == 0 <==> AllWhitespace(s)
    ensures |r| > 0 ==> !IsWhitespace(r[0]) && !IsWhitespace(r[|r| - 1])
  {
    var b := TrimBounds(s);
    s[b.0..b.1]
  }

  /** `trim` keeps exactly the slice between a whitespace prefix and a whitespace suffix that both border non-whitespace. */
  lemma TrimKeeps(s: seq<char>, lo: nat, hi: nat)
    requires lo < hi <= |s|
    requires forall k :: 0 <= k < lo ==> IsWhitespace(s[k])
    requires forall k :: hi <= k < |s| ==> IsWhitespace(s[k])
    requires !IsWhitespace(s[lo]) && !IsWhitespace(s[hi - 1])
    ensures Trim(s) == s[lo..hi]
  {
    var b := TrimBounds(s);
    assert !AllWhitespace(s);
  }

  // ---------------------------------------------------------------------
  // The e-mail pattern ^[^\s@]+@[^\s@]+\.[^\s@]+$
  // ---------------------------------------------------------------------

  /** The pattern's character class `[^\s@]`, over a whole segment. */
  predicate Clean(s: seq<char>)
  {
    forall k :: 0 <= k < |s| ==> !IsWhitespace(s[k]) && s[k] != '@'
  }

  /**
   * The pattern as written: a non-empty clean segment, '@', a non-empty
   * clean segment, '.', and a non-empty clean segment, filling the string.
   */
  ghost predicate EmailPattern(s: seq<char>)
  {
    exists i, j ::
      && 0 < i && i + 1 < j && j + 1 < |s|
      && s[i] == '@' && s[j] == '.'
      && Clean(s[..i]) && Clean(s[i + 1..j]) && Clean(s[j + 1..])
  }

  /** The position of the first `c` in `s`, if any. */
  function IndexOf(s: seq<char>, c: char): (r: Option<nat>)
    ensures r.Some? ==> r.value < |s| && s[r.value] == c && forall k :: 0 <= k < r.value ==> s[k] != c
    ensures r.None? ==> forall k :: 0 <= k < |s| ==> s[k] != c
  {
    if |s| == 0 then None
    else if s[0] == c then Some(0)
    else
      match IndexOf(s[1..], c)
      case None => None
      case Some(i) => Some(i + 1)
  }

  /** An occurrence with none before it is the one `IndexOf` finds. */
  lemma IndexOfFirst(s: seq<char>, c: char, i: nat)
    requires i < |s| && s[i] == c
    requires forall k :: 0 <= k < i ==> s[k] != c
    ensures IndexOf(s, c) == Some(i)
  {
  }

  /** A '.' strictly inside `d`, neither first nor last. */
  predicate HasInnerDot(d: seq<char>)
  {
    exists k :: 1 <= k < |d| - 1 && d[k] == '.'
  }

  /** The matcher: a clean part before the first '@', and a clean part after it holding an inner '.'. */
  predicate EmailMatches(s: seq<char>)
  {
    match IndexOf(s, '@')
    case None => false
    case Some(i) => 0 < i && Clean(s[..i]) && Clean(s[i + 1..]) && HasInnerDot(s[i + 1..])
  }

  /** A clean segment split around an inner '.' gives two clean segments. */
  lemma CleanSlices(s: seq<char>, lo: nat, hi: nat)
    requires lo <= hi <= |s| && Clean(s)
    ensures Clean(s[lo..hi])
  {
    assert forall k :: 0 <= k < hi - lo ==> s[lo..hi][k] == s[lo + k];
  }

  /** Every string the matcher accepts fits the pattern. */
  lemma EmailMatchesSound(s: seq<char>)
    requires EmailMatches(s)
    ensures EmailPattern(s)
  {
    var i := IndexOf(s, '@').value;
    var d := s[i + 1..];
    var k :| 1 <= k < |d| - 1 && d[k] == '.';
    var j := i + 1 + k;
    CleanSlices(d, 0, k);
    CleanSlices(d, k + 1, |d|);
    assert d[0..k] == s[i + 1..j];
    assert d[k + 1..|d|] == s[j + 1..];
    assert s[j] == '.';
  }

  /** Every string fitting the pattern is accepted: the '@' it splits at is the first one. */
  lemma EmailMatchesComplete(s: seq<char>, i: nat, j: nat)
    requires 0 < i && i + 1 < j && j + 1 < |s|
    requires s[i] == '@' && s[j] == '.'
    requires Clean(s[..i]) && Clean(s[i + 1..j]) && Clean(s[j + 1..])
    ensures EmailMatches(s)
  {
    forall k | 0 <= k < i
      ensures s[k] != '@'
    {
      assert s[..i][k] == s[k];
    }
    IndexOfFirst(s, '@', i);
    var d := s[i + 1..];
    assert d == s[i + 1..j] + ['.'] + s[j + 1..];
    assert Clean(d);
    assert d[j - i - 1] == '.';
  }

  /** The matcher accepts exactly the strings the pattern describes. */
  lemma EmailMatchesIff(s: seq<char>)
    ensures EmailMatches(s) <==> EmailPattern(s)
  {
    if EmailMatches(s) {
      EmailMatchesSound(s);
    }
    if EmailPattern(s) {
      var i, j :|
        && 0 < i && i + 1 < j && j + 1 < |s|
        && s[i] == '@' && s[j] == '.'
        && Clean(s[..i]) && Clean(s[i + 1..j]) && Clean(s[j + 1..]);
      EmailMatchesComplete(s, i, j);
    }
  }

  // ---------------------------------------------------------------------
  // Validation
  // ---------------------------------------------------------------------

  datatype Field = Name | Email | Message

  datatype FormData = FormData(name: string, email: string, message: string)
  {
    function Get(f: Field): string
    {
      match f
      case Name => name
      case Email => email
      case Message => message
    }

    /** `{ ...prev, [name]: value }`: one field replaced, the others kept. */
    function With(f: Field, v: string): (d: FormData)
      ensures d.Get(f) == v
      ensures forall g :: g != f ==> d.Get(g) == Get(g)
    {
      match f
      case Name => this.(name := v)
      case Email => this.(email := v)
      case Message => this.(message := v)
    }
  }

  const EmptyForm := FormData("", "", "")

  /** What each field needs to pass, stated independently of the messages. */
  ghost predicate Passes(f: Field, v: string)
  {
    match f
    case Name => |Trim(v)| >= 2
    case Email => EmailPattern(v)
    case Message => |Trim(v)| >= 10
  }

  function RequiredMessage(f: Field): string
  {
    match f
    case Name => "Name is required"
    case Email => "Email is required"
    case Message => "Message is required"
  }

  function InvalidMessage(f: Field): string
  {
    match f
    case Name => "Name must be at least 2 characters"
    case Email => "Please enter a valid email address"
    case Message => "Message must be at least 10 characters"
  }

  /**
   * The one message a field value gets, if any: "required" when the trimmed
   * value is empty, the length or format message otherwise, none when the
   * value passes.
   */
  function FieldError(f: Field, v: string): Option<string>
  {
    if |Trim(v)| == 0 then Some(RequiredMessage(f))
    else
      match f
      case Name => if |Trim(v)| < 2 then Some(InvalidMessage(f)) else None
      case Email => if !EmailMatches(v) then Some(InvalidMessage(f)) else None
      case Message => if |Trim(v)| < 10 then Some(InvalidMessage(f)) else None
  }

  /** At most one message per field, with "required" first. */
  lemma FieldErrorSpec(f: Field, v: string)
    ensures FieldError(f, v).None? <==> Passes(f, v)
    ensures AllWhitespace(v) ==> FieldError(f, v) == Some(RequiredMessage(f))
    ensures !AllWhitespace(v) ==> FieldError(f, v).None? || FieldError(f, v) == Some(InvalidMessage(f))
  {
    EmailMatchesIff(v);
  }

  /**
   * The error map a validation pass writes. A key is present with an
   * undefined value (`None`) after the user edits a field with an error.
   */
  type Errors = map<Field, Option<string>>

  /** `newErrors.f = e` when the field has a message. */
  function Note(m: Errors, f: Field, e: Option<string>): Errors
  {
    if e.Some? then m[f := e] else m
  }

  /** The map `validateForm` builds, field by field in the source's order. */
  function Validate(d: FormData): Errors
  {
    var m1 := Note(map[], Name, FieldError(Name, d.name));
    var m2 := Note(m1, Email, FieldError(Email, d.email));
    Note(m2, Message, FieldError(Message, d.message))
  }

  /** A validation pass keys exactly the fields with a message, each holding it. */
  lemma ValidateSpec(d: FormData)
    ensures forall f :: f in Validate(d) <==> FieldError(f, d.Get(f)).Some?
    ensures forall f :: f in Validate(d) ==> Validate(d)[f] == FieldError(f, d.Get(f))
  {
    var n, e, m := FieldError(Name, d.name), FieldError(Email, d.email), FieldError(Message, d.message);
    NoteSpec(map[], Name, n);
    NoteSpec(Note(map[], Name, n), Email, e);
    NoteSpec(Note(Note(map[], Name, n), Email, e), Message, m);
    forall f
      ensures f in Validate(d) <==> FieldError(f, d.Get(f)).Some?
      ensures f in Validate(d) ==> Validate(d)[f] == FieldError(f, d.Get(f))
    {
      assert f == Name || f == Email || f == Message;
    }
  }

  /** `Note` adds the one key when there is a message, and changes nothing else. */
  lemma NoteSpec(m: Errors, f: Field, e: Option<string>)
    ensures forall g :: g in Note(m, f, e) <==> g in m || (g == f && e.Some?)
    ensures forall g :: g in Note(m, f, e) ==> Note(m, f, e)[g] == if g == f && e.Some? then e else m[g]
  {
  }

  /** After validation, the keys are exactly the fields that fail their rule. */
  lemma FailingFieldsKeyed(d: FormData)
    ensures forall f :: f in Validate(d) <==> !Passes(f, d.Get(f))
  {
    ValidateSpec(d);
    forall f
      ensures f in Validate(d) <==> !Passes(f, d.Get(f))
    {
      FieldErrorSpec(f, d.Get(f));
    }
  }

  /** A form validates with no keys exactly when every field passes. */
  lemma ValidIff(d: FormData)
    ensures |Validate(d)| == 0 <==> Passes(Name, d.name) && Passes(Email, d.email) && Passes(Message, d.message)
  {
    var m := Validate(d);
    ValidateSpec(d);
    FieldErrorSpec(Name, d.name);
    FieldErrorSpec(Email, d.email);
    FieldErrorSpec(Message, d.message);
    if |m| == 0 {
      assert d.Get(Name) == d.name && d.Get(Email) == d.email && d.Get(Message) == d.message;
      assert Name !in m && Email !in m && Message !in m;
    } else {
      var f :| f in m;
    }
  }

  /** The truthiness test `errors[name]`: a key holding a non-empty message. */
  predicate HasError(errors: Errors, f: Field)
  {
    f in errors && errors[f].Some? && errors[f].value != ""
  }

  /** Setting a key to undefined keeps it, so the summary condition (some key) still holds. */
  lemma ClearedKeyKeepsSummary(errors: Errors, f: Field)
    requires f in errors
    ensures errors[f := None].Keys == errors.Keys
    ensures |errors[f := None]| == |errors| > 0
    ensures !HasError(errors[f := None], f)
  {
    assert errors[f := None].Keys == errors.Keys;
  }

  // ---------------------------------------------------------------------
  // The component
  // ---------------------------------------------------------------------

  datatype FormState = Idle | Success | Error

  /** The outcome of the post: an ok response, a non-ok response, or a thrown error. */
  datatype Reply = Ok | NotOk | Threw

  const SubmittingLabel := "Transmitting..."
  const IdleLabel := "Transmit Message"

  class ContactFormState {
    var data: FormData
    var errors: Errors
    var isSubmitting: bool
    var formState: FormState
    /** Success-reset timers scheduled and not yet fired. */
    var pendingTimers: nat

    /** A success banner always has a timer pending that will hide it. */
    ghost predicate Valid()
      reads this
    {
      formState == Success ==> pendingTimers > 0
    }

    constructor ()
      ensures Valid()
      ensures data == EmptyForm && errors == map[] && !isSubmitting
      ensures formState == Idle && pendingTimers == 0
    {
      data := EmptyForm;
      errors := map[];
      isSubmitting := false;
      formState := Idle;
      pendingTimers := 0;
    }

    /** `validateForm`: the error map is replaced by a fresh one; true when it has no keys. */
    method ValidateForm() returns (ok: bool)
      modifies this`errors
      ensures errors == Validate(data)
      ensures ok <==> |errors| == 0
    {
      var newErrors: Errors := map[];
      var nameError := FieldError(Name, data.name);
      if nameError.Some? {
        newErrors := newErrors[Name := nameError];
      }
      var emailError := FieldError(Email, data.email);
      if emailError.Some? {
        newErrors := newErrors[Email := emailError];
      }
      var messageError := FieldError(Message, data.message);
      if messageError.Some? {
        newErrors := newErrors[Message := messageError];
      }
      assert A: newErrors == Note(Note(Note(map[], Name, nameError), Email, emailError), Message, messageError);
      errors := newErrors;
      ok := |newErrors| == 0;
    }

    /** `handleChange`: the named field takes the new value; its error, if truthy, becomes undefined. */
    method HandleChange(f: Field, value: string)
      requires Valid()
      modifies this`data, this`errors
      ensures Valid()
      ensures data == old(data).With(f, value)
      ensures HasError(old(errors), f) ==> errors == old(errors)[f := None]
      ensures !HasError(old(errors), f) ==> errors == old(errors)
      ensures errors.Keys == old(errors).Keys
    {
      data := data.With(f, value);
      if HasError(errors, f) {
        errors := errors[f := None];
      }
    }

    /**
     * The synchronous half of `handleSubmit`: validate, and stop there when
     * the form is invalid; otherwise mark the form as submitting.
     */
    method BeginSubmit() returns (proceed: bool)
      requires Valid()
      modifies this`errors, this`isSubmitting
      ensures Valid()
      ensures errors == Validate(data)
      ensures proceed <==> |errors| == 0
      ensures proceed ==> isSubmitting
      ensures !proceed ==> isSubmitting == old(isSubmitting)
    {
      proceed := ValidateForm();
      if proceed {
        isSubmitting := true;
      }
    }

    /**
     * The rest of `handleSubmit`, once the post has settled: an ok reply
     * clears the fields, shows success and schedules the reset timer; any
     * other outcome shows the error banner and keeps the fields.
     */
    method CompleteSubmit(reply: Reply)
      requires Valid() && isSubmitting
      modifies this`data, this`formState, this`isSubmitting, this`pendingTimers
      ensures Valid()
      ensures !isSubmitting
      ensures reply == Ok ==> data == EmptyForm && formState == Success && pendingTimers == old(pendingTimers) + 1
      ensures reply != Ok ==> data == old(data) && formState == Error && pendingTimers == old(pendingTimers)
    {
      if reply == Ok {
        data := EmptyForm;
        formState := Success;
        pendingTimers := pendingTimers + 1;
      } else {
        formState := Error;
      }
      isSubmitting := false;
    }

    /** The five-second timer: back to idle, whatever the banner shows by then. */
    method TimerFires()
      requires Valid() && pendingTimers > 0
      modifies this`formState, this`pendingTimers
      ensures Valid()
      ensures formState == Idle && pendingTimers == old(pendingTimers) - 1
    {
      formState := Idle;
      pendingTimers := pendingTimers - 1;
    }

    /** The validation summary shows while the error map has any key at all. */
    function ShowSummary(): (b: bool)
      reads this
      ensures b <==> exists f :: f in errors
    {
      assert |errors| > 0 ==> exists f :: f in errors;
      |errors| > 0
    }

    /** The submit button: disabled with the busy label while a submission is in flight. */
    function ButtonLabel(): (l: string)
      reads this
      ensures l == SubmittingLabel <==> isSubmitting
    {
      if isSubmitting then SubmittingLabel else IdleLabel
    }

    /** A field is marked invalid, and its message shown, when its error is truthy. */
    function FieldInvalid(f: Field): (b: bool)
      reads this
      ensures b ==> f in errors && ShowSummary()
    {
      HasError(errors, f)
    }
  }

  // ---------------------------------------------------------------------
  // Worked examples
  // ---------------------------------------------------------------------

  /** "Jo" is long enough for a name. */
  lemma TwoLetterNamePasses()
    ensures FieldError(Name, "Jo") == None
  {
    assert LeadingWhitespace("Jo") == 0;
    assert TrailingWhitespace("Jo") == 0;
    assert Trim("Jo") == "Jo";
  }

  /** A message of exactly ten characters passes. */
  lemma TenCharacterMessagePasses()
    ensures FieldError(Message, "0123456789") == None
  {
    assert LeadingWhitespace("0123456789") == 0;
    assert TrailingWhitespace("0123456789") == 0;
    assert Trim("0123456789") == "0123456789";
  }

  /** A string without '@' gets the format message. */
  lemma NoAtSignFails()
    ensures FieldError(Email, "not-an-email") == Some("Please enter a valid email address")
  {
    var s := "not-an-email";
    assert s[0] == 'n';
    assert !AllWhitespace(s);
    assert '@' !in s;
    assert IndexOf(s, '@').None?;
  }

  /** The pattern is tested on the untrimmed value, so a leading space gives the format message. */
  lemma LeadingSpaceEmailFails()
    ensures FieldError(Email, " a@b.com") == Some("Please enter a valid email address")
  {
    var s := " a@b.com";
    assert s[1] == 'a';
    assert !AllWhitespace(s);
    assert IndexOf(s, '@') == Some(2);
    assert s[..2][0] == ' ';
    assert !Clean(s[..2]);
  }

  /** Ten line feeds trim to nothing, so the message is "required", not too short. */
  lemma NewlineMessageRequired()
    ensures FieldError(Message, "\n\n\n\n\n\n\n\n\n\n") == Some("Message is required")
  {
    var s := "\n\n\n\n\n\n\n\n\n\n";
    assert AllWhitespace(s);
  }

  /** Two tabs are a blank name. */
  lemma TabNameRequired()
    ensures FieldError(Name, "\t\t") == Some("Name is required")
  {
    assert AllWhitespace("\t\t");
  }

  /** A tab before the '@' is whitespace inside the first segment, so the format message shows. */
  lemma TabEmailFails()
    ensures FieldError(Email, "a\t@b.com") == Some("Please enter a valid email address")
  {
    var s := "a\t@b.com";
    assert s[0] == 'a';
    assert !AllWhitespace(s);
    assert IndexOf(s, '@') == Some(2);
    assert s[..2][1] == '\t';
    assert !Clean(s[..2]);
  }

  /** "hi" followed by nine line feeds trims to "hi", which is too short for a message. */
  lemma PaddedShortMessageFails()
    ensures FieldError(Message, "hi\n\n\n\n\n\n\n\n\n") == Some("Message must be at least 10 characters")
  {
    PaddedTrim();
  }

  /** Trimming the padded message leaves "hi". */
  lemma PaddedTrim()
    ensures Trim("hi\n\n\n\n\n\n\n\n\n") == "hi"
  {
    var s := "hi\n\n\n\n\n\n\n\n\n";
    PaddingIsNewlines();
    assert forall k :: 2 <= k < |s| ==> IsWhitespace(s[k]);
    TrimKeeps(s, 0, 2);
  }

  /** Past "hi", the padded message is all newlines. */
  lemma PaddingIsNewlines()
    ensures var s := "hi\n\n\n\n\n\n\n\n\n"; |s| == 11 && forall k :: 2 <= k < |s| ==> s[k] == '\n'
  {
  }

  /** A short well-formed address passes. */
  lemma AddressPasses()
    ensures FieldError(Email, "a@b.com") == None
  {
    var s := "a@b.com";
    assert s[0] == 'a';
    assert !AllWhitespace(s);
    AddressMatches();
  }

  /** "a@b.com" splits as "a", "@", "b", ".", "com". */
  lemma AddressMatches()
    ensures EmailMatches("a@b.com")
  {
    var s := "a@b.com";
    assert s[..1] == "a" && s[2..3] == "b" && s[4..] == "com";
    EmailMatchesComplete(s, 1, 3);
  }

  /** The three passing values together: the error map comes out empty and submission goes ahead. */
  lemma ExampleFormValidates()
    ensures Validate(FormData("Jo", "a@b.com", "0123456789")) == map[]
  {
    TwoLetterNamePasses();
    AddressPasses();
    TenCharacterMessagePasses();
  }

  /** Whatever the other fields hold, "not-an-email" keeps an e-mail error in the map, so nothing is sent. */
  lemma InvalidEmailBlocks(name: string, message: string)
    ensures var m := Validate(FormData(name, "not-an-email", message));
            Email in m && |m| > 0
  {
    var d := FormData(name, "not-an-email", message);
    NoAtSignFails();
    ValidateSpec(d);
    assert d.Get(Email) == "not-an-email";
  }
}
