/**
 * The login form's validation (login.js:5-134): the two patterns a login
 * identifier may match, the `lu`/`lp` flags that decide when the login
 * button may be enabled, and the form's enable/disable and cancel helpers.
 */
module Login {
  import opened Wrappers
  import opened Text

  // ---------------------------------------------------------------------
  // The two patterns (login.js:5-6)

  predicate IsUsernameChar(c: char) {
    ('a' <= c <= 'z') || ('A' <= c <= 'Z') || ('0' <= c <= '9') || c == '_'
  }

  /** `/^[a-zA-Z0-9_]{1,16}$/`: 1 to 16 characters, each a letter, a digit or '_'. */
  predicate ValidUsername(s: string) {
    1 <= |s| <= 16 && forall i | 0 <= i < |s| :: IsUsernameChar(s[i])
  }

  /**
   * `/^\S+@\S+\.\S+$/`, read as the regular expression matches: the whole
   * string is free of whitespace, and some '@' at index `at` and some '.' at
   * index `dot` leave a non-empty run before the '@', between the two and
   * after the '.'.
   */
  predicate BasicEmail(s: string) {
    NoWhitespace(s) &&
    exists at: nat, dot: nat | at < dot < |s| :: EmailSplit(s, at, dot)
  }

  predicate EmailSplit(s: string, at: nat, dot: nat) {
    1 <= at && at + 2 <= dot && dot + 2 <= |s| && s[at] == '@' && s[dot] == '.'
  }

  /**
   * The reading the pattern promises: a whitespace-free x@y.z with x, y and
   * z non-empty.
   */
  ghost predicate EmailShaped(s: string) {
    NoWhitespace(s) &&
    exists x: string, y: string, z: string | x != [] && y != [] && z != [] :: s == x + "@" + y + "." + z
  }

  /** The matcher's reading and the promised shape agree on every string. */
  lemma BasicEmailIffShaped(s: string)
    ensures BasicEmail(s) <==> EmailShaped(s)
  {
    if BasicEmail(s) {
      var at: nat, dot: nat :| at < dot < |s| && EmailSplit(s, at, dot);
      var x, y, z := s[..at], s[at + 1..dot], s[dot + 1..];
      assert s == x + "@" + y + "." + z;
    }
    if EmailShaped(s) {
      var x: string, y: string, z: string :| x != [] && y != [] && z != [] && s == x + "@" + y + "." + z;
      var at, dot := |x|, |x| + 1 + |y|;
      assert s[at] == '@' && s[dot] == '.';
      assert EmailSplit(s, at, dot);
    }
  }

  /** No valid username is an e-mail address: usernames have no '@'. */
  lemma UsernameIsNeverEmail(s: string)
    requires ValidUsername(s)
    ensures !BasicEmail(s)
  {
    forall i | 0 <= i < |s| ensures s[i] != '@' {
      assert IsUsernameChar(s[i]);
    }
  }

  /** What the identifier field accepts: an e-mail address or a username. */
  predicate AcceptedIdentifier(value: string) {
    BasicEmail(value) || ValidUsername(value)
  }

  // ---------------------------------------------------------------------
  // The form (login.js:18-134)

  /** The text of an error label. */
  datatype ErrorText = Blank | RequiredValue | InvalidValue

  /** An error label: its text and whether it is shown (opacity 1). */
  datatype ErrorLabel = ErrorLabel(text: ErrorText, shown: bool)

  class LoginForm {
    /** `lu`: the identifier field holds an acceptable value. */
    var lu: bool
    /** `lp`: the password field is not empty. */
    var lp: bool
    var buttonDisabled: bool
    /** How many times `loginButton.disabled` has been written. */
    var buttonWrites: nat
    var emailError: ErrorLabel
    var passwordError: ErrorLabel
    var cancelDisabled: bool
    var usernameDisabled: bool
    var passwordDisabled: bool
    var checkmarkDisabled: bool
    var rememberDisabled: bool
    var username: string
    var password: string
    var cancelShown: bool
    /** `loginViewCancelHandler`, identified by a number; None when null. */
    var cancelHandler: Option<nat>
    /** The cancel handlers run so far, in order. */
    var handlerRuns: seq<nat>

    /**
     * The validators' guarantee: the login button is enabled only when both
     * fields hold acceptable values.
     */
    predicate ButtonGuarded()
      reads this
    {
      !buttonDisabled ==> lu && lp
    }

    constructor (handler: Option<nat>)
      ensures !lu && !lp && ButtonGuarded()
      ensures cancelHandler == handler && handlerRuns == [] && buttonWrites == 0
    {
      lu, lp := false, false;
      buttonDisabled, buttonWrites := true, 0;
      emailError, passwordError := ErrorLabel(Blank, false), ErrorLabel(Blank, false);
      cancelDisabled, usernameDisabled, passwordDisabled, checkmarkDisabled, rememberDisabled := false, false, false, false, false;
      username, password := "", "";
      cancelShown := false;
      cancelHandler, handlerRuns := handler, [];
    }

    /** loginDisabled (login.js:83-87): writes the button only when its state differs. */
    method LoginDisabled(v: bool)
      modifies this`buttonDisabled, this`buttonWrites
      ensures buttonDisabled == v
      ensures buttonWrites == old(buttonWrites) + (if old(buttonDisabled) == v then 0 else 1)
    {
      if buttonDisabled != v {
        buttonDisabled := v;
        buttonWrites := buttonWrites + 1;
      }
    }

    /** validateEmail (login.js:33-51). */
    method ValidateEmail(value: string)
      modifies this`lu, this`buttonDisabled, this`buttonWrites, this`emailError
      ensures lu <==> value != [] && AcceptedIdentifier(value)
      ensures !lu ==> buttonDisabled
      ensures lu ==> buttonDisabled == (old(buttonDisabled) && !lp)
      ensures value == [] ==> emailError == ErrorLabel(RequiredValue, true)
      ensures value != [] && !lu ==> emailError == ErrorLabel(InvalidValue, true)
      ensures lu ==> emailError == old(emailError).(shown := false)
      ensures old(ButtonGuarded()) ==> ButtonGuarded()
    {
      if value != [] {
        if !BasicEmail(value) && !ValidUsername(value) {
          emailError := ErrorLabel(InvalidValue, true);
          LoginDisabled(true);
          lu := false;
        } else {
          emailError := emailError.(shown := false);
          lu := true;
          if lp {
            LoginDisabled(false);
          }
        }
      } else {
        lu := false;
        emailError := ErrorLabel(RequiredValue, true);
        LoginDisabled(true);
      }
    }

    /** validatePassword (login.js:53-65): any non-empty value is acceptable. */
    method ValidatePassword(value: string)
      modifies this`lp, this`buttonDisabled, this`buttonWrites, this`passwordError
      ensures lp <==> value != []
      ensures !lp ==> buttonDisabled && passwordError == ErrorLabel(InvalidValue, true)
      ensures lp ==> buttonDisabled == (old(buttonDisabled) && !lu)
      ensures lp ==> passwordError == old(passwordError).(shown := false)
      ensures old(ButtonGuarded()) ==> ButtonGuarded()
    {
      if value != [] {
        passwordError := passwordError.(shown := false);
        lp := true;
        if lu {
          LoginDisabled(false);
        }
      } else {
        lp := false;
        passwordError := ErrorLabel(InvalidValue, true);
        LoginDisabled(true);
      }
    }

    /** formDisabled (login.js:99-110): every control of the form takes the same state. */
    method FormDisabled(v: bool)
      modifies this`buttonDisabled, this`buttonWrites, this`cancelDisabled, this`usernameDisabled,
               this`passwordDisabled, this`checkmarkDisabled, this`rememberDisabled
      ensures buttonDisabled == v && cancelDisabled == v && usernameDisabled == v
      ensures passwordDisabled == v && checkmarkDisabled == v && rememberDisabled == v
      ensures buttonWrites == old(buttonWrites) + (if old(buttonDisabled) == v then 0 else 1)
    {
      LoginDisabled(v);
      cancelDisabled := v;
      usernameDisabled := v;
      passwordDisabled := v;
      checkmarkDisabled := v;
      rememberDisabled := v;
    }

    /**
     * The cancel button, once the view switch completes (login.js:124-134):
     * both fields are cleared, the cancel area hidden, and the pending
     * handler, if any, runs and is forgotten.
     */
    method Cancel()
      modifies this`username, this`password, this`cancelShown, this`cancelHandler, this`handlerRuns
      ensures username == [] && password == [] && !cancelShown
      ensures cancelHandler.None?
      ensures handlerRuns == old(handlerRuns) + (if old(cancelHandler).Some? then [old(cancelHandler).value] else [])
    {
      username := "";
      password := "";
      cancelShown := false;
      if cancelHandler.Some? {
        handlerRuns := handlerRuns + [cancelHandler.value];
        cancelHandler := None;
      }
    }
  }

}
