/**
 * What the sign-in, sign-up and profile forms share: the e-mail pattern
 * `\S+@\S+\.\S+` (searched anywhere in the text, not anchored), and the
 * `handleChange` rule that stores one field and clears that field's error.
 * Form data and error lists are objects of string fields, modelled as maps.
 */
module Forms {
  import opened Common

  /** No character of `s` from index `lo` up to `hi` is whitespace. */
  predicate NoSpaceBetween(s: string, lo: int, hi: int)
    requires 0 <= lo <= hi <= |s|
  {
    forall i :: lo <= i < hi ==> !IsSpace(s[i])
  }

  /**
   * The pattern matches with its `@` at index `at` and its `.` at index
   * `dot`: one non-space character before the `@`, only non-space ones (at
   * least one) between them, and one non-space character after the `.`.
   */
  predicate EmailAt(s: string, at: int, dot: int) {
    0 < at && at + 1 < dot && dot + 1 < |s|
    && s[at] == '@' && s[dot] == '.'
    && !IsSpace(s[at - 1]) && NoSpaceBetween(s, at + 1, dot) && !IsSpace(s[dot + 1])
  }

  /** `/\S+@\S+\.\S+/.test(s)`: the pattern matches somewhere in `s`. */
  predicate EmailLike(s: string) {
    exists at, dot | 0 <= at < |s| && 0 <= dot < |s| :: EmailAt(s, at, dot)
  }

  /** A text the pattern accepts has an `@`, a later `.`, and at least five characters. */
  lemma EmailLikeShape(s: string)
    requires EmailLike(s)
    ensures '@' in s && '.' in s && |s| >= 5
  {
    var at, dot :| 0 <= at < |s| && 0 <= dot < |s| && EmailAt(s, at, dot);
    assert s[at] in s && s[dot] in s;
  }

  /** Examples: a plain address passes; no `@`, nothing before it, or a space before the dot fails. */
  lemma EmailExamples()
    ensures EmailLike("a@b.c")
    ensures !EmailLike("") && !EmailLike("ab.cd")
    ensures !EmailLike("@b.cd")
    ensures !EmailLike("a@b .c")
  {
    assert EmailAt("a@b.c", 1, 3);
    assert !EmailLike("ab.cd") by {
      forall at, dot | 0 <= at < 5 && 0 <= dot < 5 ensures !EmailAt("ab.cd", at, dot) {
        assert "ab.cd"[at] != '@';
      }
    }
    assert !EmailLike("@b.cd") by {
      forall at, dot | 0 <= at < 5 && 0 <= dot < 5 ensures !EmailAt("@b.cd", at, dot) {
        assert at == 0 || "@b.cd"[at] != '@';
      }
    }
    assert !EmailLike("a@b .c") by {
      forall at, dot | 0 <= at < 6 && 0 <= dot < 6 ensures !EmailAt("a@b .c", at, dot) {
        if at == 1 && dot == 4 {
          assert "a@b .c"[3] == ' ';
        } else {
          assert "a@b .c"[at] != '@' || "a@b .c"[dot] != '.';
        }
      }
    }
  }

  /**
   * `handleChange` on the error list: a field that shows an error has it
   * replaced by `''`; no other entry changes and no entry is added.
   */
  function ClearError(errors: map<string, string>, name: string): (r: map<string, string>)
    ensures Field(r, name) == ""
    ensures r.Keys == errors.Keys
    ensures forall k :: k in errors && k != name ==> r[k] == errors[k]
  {
    if Field(errors, name) != "" then errors[name := ""] else errors
  }

  /** Editing a field twice in a row clears its error once and for all: the second edit changes nothing more. */
  lemma ClearErrorIdempotent(errors: map<string, string>, name: string)
    ensures ClearError(ClearError(errors, name), name) == ClearError(errors, name)
  {
  }

  /** The messages the sign-in and sign-up forms share. */
  const EmailRequired := "Email là bắt buộc"
  const EmailInvalid := "Email không hợp lệ"
  const PasswordRequired := "Mật khẩu là bắt buộc"
  const PasswordTooShort := "Mật khẩu phải có ít nhất 6 ký tự"

  /** What a submit reply did: the sign-in or sign-up call answered, or threw with the given text. */
  datatype AuthReply = AuthOk | AuthThrew(error: string)
}
