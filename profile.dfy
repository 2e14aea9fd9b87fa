/**
 * The profile page (src/pages/Profile.tsx): the profile and password-change
 * validators, and how an uploaded avatar's storage path is built from the
 * file name's extension.
 */
module Profile {

  // ---------------------------------------------------------------------------
  // Validators

  datatype ProfileField = NameField | EmailField

  /**
   * `profileSchema`: the name must have 2 to 50 characters. Whether the
   * email is well formed is zod's own test, taken here as a given flag.
   */
  function ProfileErrors(name: string, emailValid: bool): (r: set<ProfileField>)
    ensures NameField in r <==> |name| < 2 || |name| > 50
    ensures EmailField in r <==> !emailValid
  {
    (if 2 <= |name| <= 50 then {} else {NameField}) + (if emailValid then {} else {EmailField})
  }

  datatype PasswordField = CurrentPassword | NewPassword | ConfirmPassword

  /**
   * `passwordSchema`: current password of at least 6 characters, new and
   * confirmed passwords of 8 to 50; the length checks do not stop the
   * object-level check, so a mismatch is always reported, on the
   * confirmation field.
   */
  function PasswordErrors(current: string, newPassword: string, confirmPassword: string): (r: set<PasswordField>)
    ensures CurrentPassword in r <==> |current| < 6
    ensures NewPassword in r <==> |newPassword| < 8 || |newPassword| > 50
    ensures ConfirmPassword in r <==> |confirmPassword| < 8 || |confirmPassword| > 50 || newPassword != confirmPassword
  {
    (if |current| >= 6 then {} else {CurrentPassword}) +
    (if 8 <= |newPassword| <= 50 then {} else {NewPassword}) +
    (if 8 <= |confirmPassword| <= 50 && newPassword == confirmPassword then {} else {ConfirmPassword})
  }

  /** A password change goes through exactly when both new passwords agree and every length is in range. */
  lemma PasswordChangeAccepted(current: string, newPassword: string, confirmPassword: string)
    ensures PasswordErrors(current, newPassword, confirmPassword) == {} <==>
      |current| >= 6 && 8 <= |newPassword| <= 50 && newPassword == confirmPassword
  {
    var r := PasswordErrors(current, newPassword, confirmPassword);
    if r == {} {
      assert CurrentPassword !in r && NewPassword !in r && ConfirmPassword !in r;
    } else {
      var f :| f in r;
    }
  }

  /** Mismatched passwords are rejected however well formed each one is, and the error sits on the confirmation. */
  lemma MismatchRejected(current: string, newPassword: string, confirmPassword: string)
    requires newPassword != confirmPassword
    ensures PasswordErrors(current, newPassword, confirmPassword) != {}
    ensures ConfirmPassword in PasswordErrors(current, newPassword, confirmPassword)
  {
  }

  // ---------------------------------------------------------------------------
  // Avatar file names

  /** `s.split(d)`: the pieces between occurrences of `d`; never empty, `[""]` for `""`. */
  function Split(s: string, d: char): (r: seq<string>)
    ensures |r| >= 1
    ensures forall i :: 0 <= i < |r| ==> d !in r[i]
  {
    if s == [] then [[]]
    else
      var pieces := Split(s[..|s| - 1], d);
      var c := s[|s| - 1];
      if c == d then pieces + [[]]
      else pieces[..|pieces| - 1] + [pieces[|pieces| - 1] + [c]]
  }

  /** `pieces.join(d)`. */
  function Join(pieces: seq<string>, d: char): string
    requires |pieces| >= 1
  {
    if |pieces| == 1 then pieces[0] else Join(pieces[..|pieces| - 1], d) + [d] + pieces[|pieces| - 1]
  }

  lemma {:induction false} JoinExtendLast(pieces: seq<string>, d: char, c: char)
    requires |pieces| >= 1
    ensures Join(pieces[..|pieces| - 1] + [pieces[|pieces| - 1] + [c]], d) == Join(pieces, d) + [c]
  {
    var q := pieces[..|pieces| - 1] + [pieces[|pieces| - 1] + [c]];
    assert q[..|q| - 1] == pieces[..|pieces| - 1];
  }

  /** Splitting loses nothing: joining the pieces back gives the original string. */
  lemma {:induction false} SplitJoin(s: string, d: char)
    ensures Join(Split(s, d), d) == s
  {
    if s != [] {
      var init := s[..|s| - 1];
      SplitJoin(init, d);
      var pieces := Split(init, d);
      if s[|s| - 1] == d {
        assert (pieces + [[]])[..|pieces|] == pieces;
      } else {
        JoinExtendLast(pieces, d, s[|s| - 1]);
      }
      assert s == init + [s[|s| - 1]];
    }
  }

  /** `file.name.split('.').pop()`. */
  function FileExtension(name: string): (ext: string)
    ensures '.' !in ext
  {
    var pieces := Split(name, '.');
    pieces[|pieces| - 1]
  }

  /** The extension is whatever follows the last dot, or nothing when the name ends in a dot. */
  lemma {:induction false} ExtensionAfterLastDot(prefix: string, ext: string)
    requires '.' !in ext
    ensures FileExtension(prefix + ['.'] + ext) == ext
    decreases |ext|
  {
    var s := prefix + ['.'] + ext;
    if ext == [] {
      assert s[..|s| - 1] == prefix;
    } else {
      var init := ext[..|ext| - 1];
      assert ext == init + [ext[|ext| - 1]];
      assert s[..|s| - 1] == prefix + ['.'] + init;
      ExtensionAfterLastDot(prefix, init);
    }
  }

  /** A name without a dot is its own extension. */
  lemma {:induction false} ExtensionWithoutDot(name: string)
    requires '.' !in name
    ensures FileExtension(name) == name
  {
    if name != [] {
      var init := name[..|name| - 1];
      assert name == init + [name[|name| - 1]];
      ExtensionWithoutDot(init);
    }
  }

  /**
   * The storage path `${user.id}-${random}.${fileExt}`; the random part,
   * drawn from `Math.random`, is a parameter.
   */
  function AvatarPath(userId: string, random: string, fileName: string): (path: string)
    ensures FileExtension(path) == FileExtension(fileName)
  {
    ExtensionAfterLastDot(userId + "-" + random, FileExtension(fileName));
    userId + "-" + random + "." + FileExtension(fileName)
  }
}
