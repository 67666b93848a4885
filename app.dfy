/** The form component: its five pieces of state, the generate action that
    refuses an empty selection or replaces the password with a fresh draw,
    the copy action that only acts on a non-empty password, and the setters
    the length slider and the three check boxes call. */
module PasswordApp {
  import opened PasswordPool

  /** The two notifications the generate action raises. */
  datatype Outcome = Generated | NoCharacterClassSelected

  /** The loop of the generate action: one pool symbol per iteration,
      appended in draw order, `passwordLength` times; nothing when the
      length is zero or negative. Random number i is the one iteration i
      consumes. */
  method DrawPassword(characters: string, draws: seq<real>, passwordLength: int)
    returns (newPassword: string)
    requires characters != []
    requires ValidDraws(draws)
    requires passwordLength <= |draws|
    ensures |newPassword| == if passwordLength <= 0 then 0 else passwordLength
    ensures newPassword == Sample(characters, draws[..|newPassword|])
  {
    newPassword := "";
    var i := 0;
    while i < passwordLength
      invariant 0 <= i <= |draws|
      invariant i == 0 || i <= passwordLength
      invariant newPassword == Sample(characters, draws[..i])
    {
      SampleExtend(characters, draws, i);
      newPassword := newPassword + [characters[DrawIndex(draws[i], |characters|)]];
      i := i + 1;
    }
  }

  /** A password the form can show: empty before the first generation,
      otherwise as long as some slider position and made of symbols of the
      72-symbol alphabet. */
  predicate Displayable(password: string) {
    (password == [] || 4 <= |password| <= 32)
    && forall i :: 0 <= i < |password| ==> password[i] in FullPool
  }

  class App {
    var passwordLength: int
    var password: string
    var includeNumbers: bool
    var includeChars: bool
    var includeSpecial: bool

    /** The slider keeps the length in [4, 32]; the password is displayable. */
    ghost predicate Valid()
      reads this
    {
      4 <= passwordLength <= 32 && Displayable(password)
    }

    /** The check boxes as a selection of character classes. */
    function Selected(): Selection
      reads this
    {
      Selection(includeChars, includeNumbers, includeSpecial)
    }

    /** The initial state: length 8, no password, every class selected. */
    constructor ()
      ensures Valid()
      ensures passwordLength == 8 && password == []
      ensures includeNumbers && includeChars && includeSpecial
    {
      passwordLength := 8;
      password := "";
      includeNumbers := true;
      includeChars := true;
      includeSpecial := true;
    }

    /** With no class selected, reports the error and keeps the password.
        Otherwise replaces the password by `passwordLength` symbols drawn
        from the pool of the selected classes by the first `passwordLength`
        random numbers; length and check boxes are never changed. */
    method Generate(draws: seq<real>) returns (outcome: Outcome)
      requires Valid()
      requires ValidDraws(draws) && passwordLength <= |draws|
      modifies this`password
      ensures Valid()
      ensures outcome == Generated <==> AnyEnabled(Selected())
      ensures outcome == NoCharacterClassSelected ==> password == old(password)
      ensures outcome == Generated ==>
                |password| == passwordLength
                && password == Sample(Pool(Selected()), draws[..passwordLength])
    {
      if !includeNumbers && !includeChars && !includeSpecial {
        return NoCharacterClassSelected;
      }

      var characters := "";
      if includeChars { characters := characters + LetterAlphabet; }
      if includeNumbers { characters := characters + DigitAlphabet; }
      if includeSpecial { characters := characters + SpecialAlphabet; }
      assert characters == Pool(Selected());

      var newPassword := DrawPassword(characters, draws, passwordLength);
      SampleWithinFullPool(Selected(), draws[..passwordLength]);
      password := newPassword;
      outcome := Generated;
    }

    /** The text handed to the clipboard: none when the password is empty,
        the password itself otherwise. The state is not changed. */
    method CopyToClipboard() returns (written: Option<string>)
      ensures written.Some? <==> password != []
      ensures written.Some? ==> written.value == password
    {
      if password != [] {
        written := Some(password);
      } else {
        written := None;
      }
    }

    /** The slider: only values in [4, 32] reach the state. */
    method SetPasswordLength(value: int)
      requires Valid()
      requires 4 <= value <= 32
      modifies this`passwordLength
      ensures Valid()
      ensures passwordLength == value
    {
      passwordLength := value;
    }

    /** The "Include Numbers" check box. */
    method SetIncludeNumbers(checked: bool)
      requires Valid()
      modifies this`includeNumbers
      ensures Valid()
      ensures includeNumbers == checked
    {
      includeNumbers := checked;
    }

    /** The "Include Letters" check box. */
    method SetIncludeChars(checked: bool)
      requires Valid()
      modifies this`includeChars
      ensures Valid()
      ensures includeChars == checked
    {
      includeChars := checked;
    }

    /** The "Include Special Characters" check box. */
    method SetIncludeSpecial(checked: bool)
      requires Valid()
      modifies this`includeSpecial
      ensures Valid()
      ensures includeSpecial == checked
    {
      includeSpecial := checked;
    }
  }
}
