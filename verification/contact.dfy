/** The contact page of `src/app/contact/page.js`: the form fields, the
    simulated submission and the rotating office highlight. The two
    `setTimeout` callbacks and the `setInterval` callback are separate
    transitions. */
module Contact {
  import opened Optional

  /** The `name` attributes of the form's inputs. */
  datatype Field = Name | Email | Company | Subject | Message | Interest

  datatype ContactForm = ContactForm(
    name: string,
    email: string,
    company: string,
    subject: string,
    message: string,
    interest: string)

  const InitialForm := ContactForm("", "", "", "", "", "general")

  function Get(form: ContactForm, f: Field): string
  {
    match f
    case Name => form.name
    case Email => form.email
    case Company => form.company
    case Subject => form.subject
    case Message => form.message
    case Interest => form.interest
  }

  /** `handleInputChange` for the input named `f`. */
  function InputChange(form: ContactForm, f: Field, value: string): (r: ContactForm)
    ensures Get(r, f) == value
    ensures forall g :: g != f ==> Get(r, g) == Get(form, g)
  {
    match f
    case Name => form.(name := value)
    case Email => form.(email := value)
    case Company => form.(company := value)
    case Subject => form.(subject := value)
    case Message => form.(message := value)
    case Interest => form.(interest := value)
  }

  /** Re-typing a field's current value leaves the form as it was, and a
      second change to the same field overrides the first. */
  lemma InputChangeLaws(form: ContactForm, f: Field, v: string, w: string)
    ensures InputChange(form, f, Get(form, f)) == form
    ensures InputChange(InputChange(form, f, v), f, w) == InputChange(form, f, w)
  {
  }

  datatype Office = Office(city: string, country: string, timezone: string, isHeadquarters: bool)

  const Offices: seq<Office> := [
    Office("San Francisco", "USA", "PST", true),
    Office("London", "UK", "GMT", false),
    Office("Tokyo", "Japan", "JST", false)
  ]

  datatype ContactState = ContactState(
    form: ContactForm,
    isSubmitting: bool,
    submitStatus: Option<string>,
    activeOffice: int)

  const InitialContact := ContactState(InitialForm, false, None, 0)

  /** Typing into the form. */
  function Type(s: ContactState, f: Field, value: string): (t: ContactState)
    ensures Get(t.form, f) == value
    ensures forall g :: g != f ==> Get(t.form, g) == Get(s.form, g)
    ensures t.(form := s.form) == s
  {
    s.(form := InputChange(s.form, f, value))
  }

  /** `handleSubmit`, up to scheduling the simulated response. */
  function Submit(s: ContactState): (t: ContactState)
    ensures t.isSubmitting
    ensures t.(isSubmitting := s.isSubmitting) == s
  {
    s.(isSubmitting := true)
  }

  /** The response timeout two seconds after submitting. */
  function CompleteSubmission(s: ContactState): (t: ContactState)
    ensures !t.isSubmitting && t.submitStatus == Some("success")
    ensures t.form == InitialForm
    ensures t.activeOffice == s.activeOffice
  {
    s.(isSubmitting := false, submitStatus := Some("success"), form := InitialForm)
  }

  /** The timeout five seconds after a success. */
  function ClearStatus(s: ContactState): (t: ContactState)
    ensures t.submitStatus == None
    ensures t.(submitStatus := s.submitStatus) == s
  {
    s.(submitStatus := None)
  }

  /** Submitting marks the form busy and keeps what was typed, completion
      shows the success message, and clearing that message leaves an empty,
      idle form whatever was typed. */
  lemma SubmissionSequence(s: ContactState)
    ensures Submit(s).isSubmitting && Submit(s).form == s.form
    ensures CompleteSubmission(Submit(s)).submitStatus == Some("success")
    ensures var t := ClearStatus(CompleteSubmission(Submit(s)));
            t == InitialContact.(activeOffice := s.activeOffice)
  {
  }

  /** JavaScript's `%`, which truncates toward zero: the remainder congruent
      to the dividend, smaller than the divisor in size, with the dividend's
      sign. */
  function JsRemainder(a: int, n: int): (r: int)
    requires n > 0
    ensures -n < r < n
    ensures (a - r) % n == 0
    ensures a >= 0 ==> 0 <= r
    ensures a < 0 ==> r <= 0
  {
    if a >= 0 then
      RemainderUnique(a - a % n, a / n, 0, n);
      a % n
    else
      var m := -a;
      assert a - -(m % n) == -(m / n) * n;
      RemainderUnique(a - -(m % n), -(m / n), 0, n);
      -(m % n)
  }

  /** Division with remainder is unique: a remainder in `0..n-1` that makes
      `x == q * n + rem` is `x % n`. */
  lemma RemainderUnique(x: int, q: int, rem: int, n: int)
    requires n > 0 && 0 <= rem < n
    requires x == q * n + rem
    ensures x % n == rem
  {
    var q', r' := x / n, x % n;
    assert (q - q') * n == r' - rem;
    if q > q' {
      AtLeastOnce(q - q', n);
    } else if q < q' {
      AtLeastOnce(q' - q, n);
    }
  }

  /** A positive multiple of a positive `n` is at least `n`. */
  lemma {:induction false} AtLeastOnce(d: int, n: int)
    requires d >= 1 && n > 0
    ensures d * n >= n
    decreases d
  {
    if d > 1 {
      AtLeastOnce(d - 1, n);
      assert d * n == (d - 1) * n + n;
    }
  }

  /** The five-second rotation callback. */
  function RotateOffice(active: int): (r: int)
    ensures active >= -1 ==> 0 <= r < |Offices|
  {
    JsRemainder(active + 1, |Offices|)
  }

  function RotateTimes(active: int, k: nat): int
    decreases k
  {
    if k == 0 then active else RotateTimes(RotateOffice(active), k - 1)
  }

  /** From a valid office, `k` rotations land on `(start + k) mod 3`. */
  lemma {:induction false} RotateTimesClosedForm(active: int, k: nat)
    requires 0 <= active < |Offices|
    ensures RotateTimes(active, k) == (active + k) % |Offices|
    decreases k
  {
    if k > 0 {
      var next := RotateOffice(active);
      RotateTimesClosedForm(next, k - 1);
      assert next == (active + 1) % |Offices|;
    }
  }

  /** Any number of rotations keeps a valid index, and a full cycle of three
      returns to the starting office. */
  lemma RotationStaysInRangeAndCycles(active: int, k: nat)
    requires 0 <= active < |Offices|
    ensures 0 <= RotateTimes(active, k) < |Offices|
    ensures RotateTimes(active, |Offices|) == active
  {
    RotateTimesClosedForm(active, k);
    RotateTimesClosedForm(active, |Offices|);
  }

  /** Clicking office card `i`. */
  function ClickOffice(s: ContactState, i: int): (t: ContactState)
    ensures t.activeOffice == i
    ensures t.(activeOffice := s.activeOffice) == s
  {
    s.(activeOffice := i)
  }
}
