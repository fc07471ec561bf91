/** utils/variants.py: the alternate username-variant generator, which
    removes both dots and underscores to form its base. */
module Variants {
  import opened Text
  import opened Order
  import Usernames

  /** The seven forms `username_variants` puts in its set. */
  function VariantForms(u: string): seq<string>
  {
    var base := Without(Without(u, '.'), '_');
    [ u,
      Without(u, '.'),
      Without(u, '_'),
      "_" + u,
      u + "_",
      base,
      "_" + base + "_" ]
  }

  /** `username_variants`: `list(set(...))` of the seven forms. Python
      leaves the order to the set; this model lists them ascending, and
      the contract promises only what the source does: each form once,
      nothing else. */
  function UsernameVariants(u: string): (variants: seq<string>)
    ensures NoDup(variants)
    ensures Elems(variants) == Elems(VariantForms(u))
    ensures u in variants
    ensures 1 <= |variants| <= 7
  {
    var variants := SortDistinct(VariantForms(u));
    SortedNoDup(variants);
    assert u in Elems(VariantForms(u));
    assert u in Elems(variants);
    variants
  }

  /** The base here has neither dots nor underscores. */
  lemma BaseHasNoSeparators(u: string)
    ensures '.' !in VariantForms(u)[5] && '_' !in VariantForms(u)[5]
  {
  }

  /** The two generators agree on the username itself and on its dot-free
      and underscore-free forms. */
  lemma GeneratorsShareForms(u: string)
    ensures var shared := {u, Without(u, '.'), Without(u, '_')};
      shared <= Elems(UsernameVariants(u)) && shared <= Elems(Usernames.GenerateVariants(u))
  {
    VariantsHoldShared(u);
    GenerateHoldsShared(u);
  }

  /** This generator's result holds the three shared forms. */
  lemma VariantsHoldShared(u: string)
    ensures {u, Without(u, '.'), Without(u, '_')} <= Elems(UsernameVariants(u))
  {
    FormsHoldShared(u);
  }

  /** Its seven forms start with the three shared ones. */
  lemma FormsHoldShared(u: string)
    ensures u in Elems(VariantForms(u))
    ensures Without(u, '.') in Elems(VariantForms(u))
    ensures Without(u, '_') in Elems(VariantForms(u))
  {
    var f := VariantForms(u);
    ElemsAt(f, 0);
    ElemsAt(f, 1);
    ElemsAt(f, 2);
  }

  /** `generate_variants`' result holds the three shared forms. */
  lemma GenerateHoldsShared(u: string)
    ensures {u, Without(u, '.'), Without(u, '_')} <= Elems(Usernames.GenerateVariants(u))
  {
    UsernamesShareForms(u);
  }

  /** The eight forms of the other generator include the same three. */
  lemma UsernamesShareForms(u: string)
    ensures u in Elems(Usernames.VariantForms(u))
    ensures Without(u, '.') in Elems(Usernames.VariantForms(u))
    ensures Without(u, '_') in Elems(Usernames.VariantForms(u))
  {
    var g := Usernames.VariantForms(u);
    ElemsAt(g, 0);
    ElemsAt(g, 6);
    ElemsAt(g, 7);
  }
}
