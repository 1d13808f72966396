/** Upper case of ASCII letters. */
module Letters {
  function UpperChar(c: char): char {
    if 'a' <= c <= 'z' then ((c as int) - 32) as char else c
  }

  function Upper(s: string): string {
    seq(|s|, i requires 0 <= i < |s| => UpperChar(s[i]))
  }

  predicate IsLower(c: char) {
    'a' <= c <= 'z'
  }

  /** The same character, or the same letter of the alphabet in its other case. */
  predicate SameLetter(c: char, d: char) {
    || c == d
    || ('a' <= c <= 'z' && 'A' <= d <= 'Z' && c as int - 'a' as int == d as int - 'A' as int)
    || ('A' <= c <= 'Z' && 'a' <= d <= 'z' && c as int - 'A' as int == d as int - 'a' as int)
  }

  predicate SameButCase(s: string, t: string) {
    |s| == |t| && forall i :: 0 <= i < |s| ==> SameLetter(s[i], t[i])
  }

  /** Upper case is the one form of a text that differs from it in case only and has no lower-case letter. */
  lemma UpperIsTheForm(s: string, t: string)
    ensures t == Upper(s) <==> SameButCase(s, t) && forall i :: 0 <= i < |t| ==> !IsLower(t[i])
  {
    if SameButCase(s, t) && forall i :: 0 <= i < |t| ==> !IsLower(t[i]) {
      forall i | 0 <= i < |s| ensures t[i] == Upper(s)[i] {
        assert SameLetter(s[i], t[i]) && !IsLower(t[i]);
      }
    }
  }

  /** Two texts have one upper case exactly when they differ in case only. */
  lemma SameUpperIff(s: string, t: string)
    ensures Upper(s) == Upper(t) <==> SameButCase(s, t)
  {
    if Upper(s) == Upper(t) {
      forall i | 0 <= i < |s| ensures |s| == |t| && SameLetter(s[i], t[i]) {
        assert |Upper(s)| == |Upper(t)|;
        assert Upper(s)[i] == Upper(t)[i];
      }
      assert |Upper(s)| == |Upper(t)|;
    }
    if SameButCase(s, t) {
      forall i | 0 <= i < |s| ensures Upper(s)[i] == Upper(t)[i] {
        assert SameLetter(s[i], t[i]);
      }
      assert Upper(s) == Upper(t);
    }
  }
}
