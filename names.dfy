/** Display names shown for cameras and masks. */
module Names {
  import opened Wrappers
  import Text

  /** A friendly name is used when it is set and not empty. */
  predicate IsSet(friendly: Option<string>) {
    friendly.Some? && friendly.value != ""
  }

  /**
   * The friendly name when it is non-empty, else the identifier title-cased. Without a friendly
   * name every underscore and space of the identifier becomes a space, a
   * letter that starts a word is upper-cased, one that continues a word is
   * lower-cased, and everything else is kept.
   */
  function FormattedName(friendly: Option<string>, fallback: string): (r: string)
    ensures IsSet(friendly) ==> r == friendly.value
    ensures !IsSet(friendly) ==>
      && |r| == |fallback|
      && (forall i :: 0 <= i < |r| ==> (r[i] == ' ' <==> fallback[i] == '_' || fallback[i] == ' '))
      && (forall i :: 0 <= i < |r| && fallback[i] != '_' && (i == 0 || !Text.IsLetter(fallback[i - 1])) ==>
            r[i] == Text.ToUpper(fallback[i]))
      && (forall i :: 0 <= i < |r| && fallback[i] != '_' && i > 0 && Text.IsLetter(fallback[i - 1]) ==>
            r[i] == Text.ToLower(fallback[i]))
  {
    if IsSet(friendly) then friendly.value
    else
      var spaced := Text.ReplaceChar(fallback, '_', ' ');
      assert forall i :: 0 <= i < |fallback| ==>
        (Text.IsLetter(spaced[i]) <==> Text.IsLetter(fallback[i])) && (spaced[i] == ' ' <==> fallback[i] == '_' || fallback[i] == ' ');
      TitleKeepsSpaces(spaced);
      Text.Title(spaced)
  }

  /** Title-casing turns no character into a space and no space into anything else. */
  lemma TitleKeepsSpaces(s: string)
    ensures forall i :: 0 <= i < |s| ==> (Text.Title(s)[i] == ' ' <==> s[i] == ' ')
  {
    forall i | 0 <= i < |s|
      ensures Text.Title(s)[i] == ' ' <==> s[i] == ' '
    {
      var c := s[i];
      var t := Text.Title(s);
      assert t[i] == if i > 0 && Text.IsLetter(s[i - 1]) then Text.ToLower(c) else Text.ToUpper(c);
      if Text.IsLower(c) {
        assert Text.ToUpper(c) as int == c as int - 32;
      } else if Text.IsUpper(c) {
        assert Text.ToLower(c) as int == c as int + 32;
      }
    }
  }
}
