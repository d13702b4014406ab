/** The sign-up form's client-side rules: the five-criterion password
    strength recomputed on every password edit, its label and colour, and
    when the submit button is enabled. */
module Signup {
  import opened Text

  /** `[^A-Za-z0-9]`: anything but an ASCII letter or digit. */
  predicate IsSymbol(c: char) { !IsLetter(c) && !IsDigit(c) }

  predicate HasSome(s: string, p: char -> bool) { exists i :: 0 <= i < |s| && p(s[i]) }

  function Point(b: bool): nat { if b then 1 else 0 }

  /** The five criteria in the order the page tests them: length at least 8,
      a lower-case letter, an upper-case letter, a digit, any other character. */
  function Criteria(password: string): seq<bool> {
    [|password| >= 8, HasSome(password, IsLowerLetter), HasSome(password, IsUpper),
     HasSome(password, IsDigit), HasSome(password, IsSymbol)]
  }

  /** How many entries of `c` equal `b`. */
  function CountOf(c: seq<bool>, b: bool): nat {
    if |c| == 0 then 0 else Point(c[0] == b) + CountOf(c[1..], b)
  }

  /** Every entry is counted once, as met or as failed. */
  lemma {:induction false} CountsSplit(c: seq<bool>)
    ensures CountOf(c, true) + CountOf(c, false) == |c|
  {
    if |c| > 0 {
      CountsSplit(c[1..]);
    }
  }

  lemma CountOfFive(a: bool, b: bool, c: bool, d: bool, e: bool, x: bool)
    ensures CountOf([a, b, c, d, e], x) == Point(a == x) + Point(b == x) + Point(c == x) + Point(d == x) + Point(e == x)
  {
    assert [a, b, c, d, e][1..] == [b, c, d, e];
    assert [b, c, d, e][1..] == [c, d, e];
    assert [c, d, e][1..] == [d, e];
    assert [d, e][1..] == [e];
    assert CountOf([e], x) == Point(e == x) + CountOf([], x);
    assert CountOf([d, e], x) == Point(d == x) + CountOf([e], x);
    assert CountOf([c, d, e], x) == Point(c == x) + CountOf([d, e], x);
    assert CountOf([b, c, d, e], x) == Point(b == x) + CountOf([c, d, e], x);
  }

  /** The strength meter: one point per criterion met. Four or five points
      (at most one criterion failing) reads Strong, two or fewer (three or
      more failing) reads Weak. */
  function Strength(password: string): (n: nat)
    ensures n <= 5
    ensures n == CountOf(Criteria(password), true)
    ensures n == 5 <==> |password| >= 8 && HasSome(password, IsLowerLetter) && HasSome(password, IsUpper)
                        && HasSome(password, IsDigit) && HasSome(password, IsSymbol)
    ensures n >= 4 <==> CountOf(Criteria(password), false) <= 1
    ensures n <= 2 <==> CountOf(Criteria(password), false) >= 3
  {
    var c := Criteria(password);
    CountOfFive(c[0], c[1], c[2], c[3], c[4], true);
    CountsSplit(c);
    Point(|password| >= 8) + Point(HasSome(password, IsLowerLetter)) + Point(HasSome(password, IsUpper))
      + Point(HasSome(password, IsDigit)) + Point(HasSome(password, IsSymbol))
  }

  lemma EmptyIsZero()
    ensures Strength("") == 0
  {
  }

  /** A character class found in a string is still found after appending. */
  lemma HasSomeAppend(a: string, b: string, p: char -> bool)
    ensures HasSome(a, p) ==> HasSome(a + b, p)
  {
    if HasSome(a, p) {
      var i :| 0 <= i < |a| && p(a[i]);
      assert (a + b)[i] == a[i];
    }
  }

  /** Typing more characters never lowers the strength. */
  lemma {:induction false} StrengthMonotone(a: string, b: string)
    ensures Strength(a) <= Strength(a + b)
  {
    HasSomeAppend(a, b, IsLowerLetter);
    HasSomeAppend(a, b, IsUpper);
    HasSomeAppend(a, b, IsDigit);
    HasSomeAppend(a, b, IsSymbol);
  }

  /** The meter's label. */
  function StrengthText(strength: int): (r: string)
    ensures r == "Weak" <==> strength <= 2
    ensures r == "Fair" <==> strength == 3
    ensures r == "Strong" <==> strength >= 4
  {
    if strength <= 2 then "Weak" else if strength <= 3 then "Fair" else "Strong"
  }

  /** The meter's colour class. */
  function StrengthColor(strength: int): (r: string)
    ensures r == "bg-red-500" <==> strength <= 2
    ensures r == "bg-yellow-500" <==> strength == 3
    ensures r == "bg-green-500" <==> strength >= 4
  {
    if strength <= 2 then "bg-red-500" else if strength <= 3 then "bg-yellow-500" else "bg-green-500"
  }

  /** Label and colour move together: each label has exactly one colour. */
  lemma ColorFollowsText(strength: int)
    ensures StrengthText(strength) == "Weak" <==> StrengthColor(strength) == "bg-red-500"
    ensures StrengthText(strength) == "Fair" <==> StrengthColor(strength) == "bg-yellow-500"
    ensures StrengthText(strength) == "Strong" <==> StrengthColor(strength) == "bg-green-500"
  {
  }

  // ------------------------------------------------------------ form state

  const FormFields: set<string> := {"fullName", "username", "email", "password", "confirmPassword"}

  datatype SignupState = SignupState(form: map<string, string>, strength: nat, isLoading: bool)

  /** The state the page renders first: every field empty. */
  const Initial: SignupState := SignupState(
    map["fullName" := "", "username" := "", "email" := "", "password" := "", "confirmPassword" := ""], 0, false)

  /** Every field is present and the meter shows the password's strength. */
  predicate Consistent(st: SignupState) {
    FormFields <= st.form.Keys && st.strength == Strength(st.form["password"])
  }

  lemma InitialConsistent()
    ensures Consistent(Initial)
  {
    EmptyIsZero();
  }

  /** `handleInputChange`: the named field takes the value; only a password
      edit recomputes the strength. */
  function HandleInputChange(st: SignupState, field: string, value: string): (r: SignupState)
    ensures r.form.Keys == st.form.Keys + {field} && r.form[field] == value
    ensures forall f :: f in st.form && f != field ==> r.form[f] == st.form[f]
    ensures field == "password" ==> r.strength == Strength(value)
    ensures field != "password" ==> r.strength == st.strength
    ensures r.isLoading == st.isLoading
  {
    var form := st.form[field := value];
    if field == "password" then SignupState(form, Strength(value), st.isLoading)
    else SignupState(form, st.strength, st.isLoading)
  }

  /** Every edit keeps the meter in step with the password field. */
  lemma HandleInputChangeConsistent(st: SignupState, field: string, value: string)
    requires Consistent(st)
    ensures Consistent(HandleInputChange(st, field, value))
  {
    var r := HandleInputChange(st, field, value);
    assert field != "password" ==> r.form["password"] == st.form["password"];
  }

  /** The submit button's `disabled` negated. */
  function SubmitEnabled(st: SignupState): (r: bool)
    requires FormFields <= st.form.Keys
    ensures r <==> !st.isLoading && st.form["password"] == st.form["confirmPassword"]
  {
    !(st.isLoading || st.form["password"] != st.form["confirmPassword"])
  }

  /** `handleSubmit`: loading starts, which disables the button. */
  function HandleSubmit(st: SignupState): (r: SignupState)
    requires FormFields <= st.form.Keys
    ensures r.form == st.form && r.strength == st.strength
    ensures r.isLoading && !SubmitEnabled(r)
  {
    st.(isLoading := true)
  }
}
