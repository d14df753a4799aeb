/**
 * The registration form: five text fields, a check that the two passwords
 * match and are long enough, and the user data handed to the store's
 * register action (which is not part of this model) when the form passes.
 */
module Register {
  import opened Wrappers
  import opened Text
  import opened Js

  const Mismatch := "كلمات المرور غير متطابقة"
  const TooShort := "كلمة المرور يجب أن تكون 6 أحرف على الأقل"

  /** The shortest accepted password, in UTF-16 code units: `password.length < 6` is refused. */
  const MinLength := 6

  /** validatePasswords: the message it sets, or None when the passwords are accepted. Mismatch is checked first. */
  function PasswordCheck(password: string, confirm: string): (r: Option<string>)
    ensures password != confirm ==> r == Some(Mismatch)
    ensures password == confirm && Utf16Length(password) < MinLength ==> r == Some(TooShort)
    ensures r.None? <==> password == confirm && Utf16Length(password) >= MinLength
  {
    if password != confirm then Some(Mismatch)
    else if Utf16Length(password) < MinLength then Some(TooShort)
    else None
  }

  /** Six characters of the Basic Multilingual Plane are enough; five are not. */
  lemma {:induction false} LengthBoundary(p: string)
    requires forall i :: 0 <= i < |p| ==> p[i] as int <= 0xFFFF
    ensures |p| == 6 ==> PasswordCheck(p, p).None?
    ensures |p| == 5 ==> PasswordCheck(p, p) == Some(TooShort)
  {
  }

  /** `length` counts UTF-16 code units: three characters outside the BMP already make six. */
  lemma {:induction false} AstralCharactersCountTwice(p: string)
    requires |p| == 3 && forall i :: 0 <= i < |p| ==> p[i] as int > 0xFFFF
    ensures Utf16Length(p) == 6
    ensures PasswordCheck(p, p).None?
  {
    assert p[1..][1..] == p[2..];
    assert Utf16Length(p[2..]) == 2;
    assert Utf16Length(p[1..]) == 4;
  }

  /** What register() receives: everything but the confirmation. */
  datatype UserData = UserData(username: string, fullName: string, email: string, password: string)

  const FormKeys := ["username", "fullName", "email", "password", "confirmPassword"]

  /** Every input of the form has an entry. */
  predicate HasAllFields(form: seq<(string, string)>) {
    forall i :: 0 <= i < |FormKeys| ==> Lookup(form, FormKeys[i]).Some?
  }

  function Entry(form: seq<(string, string)>, k: string): string {
    Lookup(form, k).GetOr("")
  }

  class RegisterForm {
    var form: seq<(string, string)>
    var validated: bool
    var passwordError: string
    /** The user data dispatched to the store so far. */
    ghost var dispatched: seq<UserData>

    ghost predicate Valid()
      reads this
    {
      HasAllFields(form)
      && forall i :: 0 <= i < |dispatched| ==> Utf16Length(dispatched[i].password) >= MinLength
    }

    constructor ()
      ensures Valid()
      ensures form == [("username", ""), ("fullName", ""), ("email", ""), ("password", ""), ("confirmPassword", "")]
      ensures !validated && passwordError == "" && dispatched == []
    {
      form := [("username", ""), ("fullName", ""), ("email", ""), ("password", ""), ("confirmPassword", "")];
      validated := false;
      passwordError := "";
      dispatched := [];
    }

    /** onChange: the named field takes the value; typing a password clears its error. */
    method OnChange(name: string, value: string)
      requires Valid()
      modifies this
      ensures Valid()
      ensures form == Update(old(form), name, value)
      ensures Entry(form, name) == value
      ensures forall k :: k != name ==> Entry(form, k) == Entry(old(form), k)
      ensures passwordError == if name == "password" || name == "confirmPassword" then "" else old(passwordError)
      ensures validated == old(validated) && dispatched == old(dispatched)
    {
      ghost var before := form;
      form := Update(form, name, value);
      forall k ensures Lookup(form, k) == if k == name then Some(value) else Lookup(before, k) {
        LookupUpdate(before, name, value, k);
      }
      if name == "confirmPassword" || name == "password" {
        passwordError := "";
      }
    }

    /**
     * onSubmit: a form the browser finds invalid only turns on validation
     * styling; otherwise the passwords are checked, and only a pair that
     * passes dispatches, leaving any earlier message in place.
     */
    method OnSubmit(formValid: bool)
      requires Valid()
      modifies this
      ensures Valid() && form == old(form)
      ensures !formValid ==> validated && passwordError == old(passwordError) && dispatched == old(dispatched)
      ensures formValid ==> validated == old(validated)
      ensures formValid ==>
                var check := PasswordCheck(Entry(form, "password"), Entry(form, "confirmPassword"));
                if check.Some? then passwordError == check.value && dispatched == old(dispatched)
                else passwordError == old(passwordError)
                     && dispatched == old(dispatched) + [UserData(Entry(form, "username"), Entry(form, "fullName"),
                                                                   Entry(form, "email"), Entry(form, "password"))]
    {
      if !formValid {
        validated := true;
        return;
      }
      var check := PasswordCheck(Entry(form, "password"), Entry(form, "confirmPassword"));
      if check.Some? {
        passwordError := check.value;
        return;
      }
      dispatched := dispatched + [UserData(Entry(form, "username"), Entry(form, "fullName"),
                                           Entry(form, "email"), Entry(form, "password"))];
    }
  }
}
