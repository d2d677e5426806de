/**
  The two names `Moksha\PostType` derives from a declared post-type or
  taxonomy name: the title-cased singular shown in labels,
  `ucwords(strtolower($name))`, and the slug passed to the host,
  `strtolower(str_replace(' ', '-', $singularName))`.
 */
module Naming {
  import opened Ascii

  /** The singular label: lower-case everything, then capitalise each word. */
  function Singular(name: string): string
  {
    UcWords(StrToLower(name))
  }

  /** The slug expression of the source, applied to an already computed singular name. */
  function SlugOf(singular: string): string
  {
    StrToLower(SpacesToHyphens(singular))
  }

  /**
    The singular name capitalises the first letter of every word and lower-cases
    every other letter; word boundaries are those of the declared name.
   */
  lemma SingularShape(name: string)
    ensures |Singular(name)| == |name|
    ensures forall i :: 0 <= i < |name| && StartsWord(name, i) ==>
              Singular(name)[i] == ToUpper(ToLower(name[i])) && !IsLower(Singular(name)[i])
    ensures forall i :: 0 <= i < |name| && !StartsWord(name, i) ==>
              Singular(name)[i] == ToLower(name[i]) && !IsUpper(Singular(name)[i])
  {
    var lowered := StrToLower(name);
    forall i | 0 < i < |name|
      ensures StartsWord(lowered, i) <==> StartsWord(name, i)
    {
      DelimiterIgnoresCase(name[i - 1]);
    }
  }

  /** Title-casing before the slug expression is lost again: the slug depends on the raw name only. */
  lemma SlugIgnoresTitleCase(name: string)
    ensures SlugOf(Singular(name)) == StrToLower(SpacesToHyphens(name))
  {
    var lhs := SlugOf(Singular(name));
    var rhs := StrToLower(SpacesToHyphens(name));
    SingularShape(name);
    forall i | 0 <= i < |name| ensures lhs[i] == rhs[i] {
      LowerHyphenAbsorbsCase(name[i]);
    }
  }

  /**
    The slug registered for a declared name: the name with spaces turned into
    hyphens and ASCII letters lower-cased, so it has no space and no upper-case letter.
   */
  function Slug(name: string): (r: string)
    ensures r == StrToLower(SpacesToHyphens(name))
    ensures |r| == |name|
    ensures forall i :: 0 <= i < |r| ==> r[i] != ' ' && !IsUpper(r[i])
  {
    SlugIgnoresTitleCase(name);
    SlugOf(Singular(name))
  }

  /** A name with no space and no upper-case letter is its own slug. */
  lemma SlugOfSlugShaped(name: string)
    requires forall i :: 0 <= i < |name| ==> name[i] != ' ' && !IsUpper(name[i])
    ensures Slug(name) == name
  {
    var r := Slug(name);
    forall i | 0 <= i < |name| ensures r[i] == name[i] {
      assert SpacesToHyphens(name)[i] == name[i];
    }
  }

  /** Slugging is idempotent. */
  lemma SlugIdempotent(name: string)
    ensures Slug(Slug(name)) == Slug(name)
  {
    SlugOfSlugShaped(Slug(name));
  }
}
