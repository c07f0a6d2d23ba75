/** The sign-up form: the slug field's normalisation
    (`value.toLowerCase().replace(/[^a-z0-9-]/g, '-').replace(/-+/g, '-')`)
    and the rule that fills the slug in from the restaurant name.

    Case mapping is ASCII only: `A`–`Z` become `a`–`z`, every other
    character is left alone by the lower-casing and then, not being one of
    `a`–`z`, `0`–`9`, `-`, becomes a hyphen. */
module Signup {
  import opened Common

  /** The characters a slug may contain: `[a-z0-9-]`. */
  predicate SlugChar(c: char)
  {
    IsLower(c) || IsDigit(c) || c == '-'
  }

  predicate AllSlugChars(s: string)
  {
    forall i :: 0 <= i < |s| ==> SlugChar(s[i])
  }

  predicate NoDoubleHyphen(s: string)
  {
    forall i :: 0 <= i < |s| - 1 ==> !(s[i] == '-' && s[i + 1] == '-')
  }

  /** The text of `s` with its hyphens taken out. */
  function WithoutHyphens(s: string): string
  {
    Filter(s, (c: char) => c != '-')
  }

  /** `.replace(/[^a-z0-9-]/g, '-')` on one character. */
  function RewriteChar(c: char): char
  {
    if SlugChar(c) then c else '-'
  }

  /** `.replace(/[^a-z0-9-]/g, '-')`: position by position. */
  function RewriteChars(s: string): (r: string)
    ensures |r| == |s|
    ensures forall i :: 0 <= i < |s| ==> r[i] == RewriteChar(s[i])
    ensures AllSlugChars(r)
  {
    if |s| == 0 then "" else [RewriteChar(s[0])] + RewriteChars(s[1..])
  }

  /** `.replace(/-+/g, '-')`: every run of hyphens becomes one hyphen.
      The first and last characters survive, so leading and trailing
      hyphens are kept. */
  function CollapseHyphens(s: string): (r: string)
    ensures |r| <= |s|
    ensures |s| > 0 ==> |r| > 0 && r[0] == s[0] && r[|r| - 1] == s[|s| - 1]
    ensures NoDoubleHyphen(r)
    decreases |s|
  {
    if |s| == 0 then ""
    else if s[0] == '-' && |s| > 1 && s[1] == '-' then CollapseHyphens(s[1..])
    else
      var rest := CollapseHyphens(s[1..]);
      assert |s| > 1 ==> rest[0] == s[1];
      [s[0]] + rest
  }

  /** Collapsing removes hyphens and nothing else: the text between the
      hyphens is unchanged, and no new character appears. */
  lemma {:induction false} CollapseRemovesOnlyHyphens(s: string)
    ensures WithoutHyphens(CollapseHyphens(s)) == WithoutHyphens(s)
    ensures AllSlugChars(s) ==> AllSlugChars(CollapseHyphens(s))
    decreases |s|
  {
    var keep := (c: char) => c != '-';
    if |s| > 0 {
      CollapseRemovesOnlyHyphens(s[1..]);
      assert s == [s[0]] + s[1..];
      FilterAppend([s[0]], s[1..], keep);
      if !(s[0] == '-' && |s| > 1 && s[1] == '-') {
        var rest := CollapseHyphens(s[1..]);
        assert CollapseHyphens(s) == [s[0]] + rest;
        FilterAppend([s[0]], rest, keep);
      }
    }
  }

  /** `handleSlugChange`: the slug stored for what was typed. */
  function NormalizeSlug(value: string): (r: string)
    ensures AllSlugChars(r)
    ensures NoDoubleHyphen(r)
    ensures |r| <= |value|
    ensures |value| > 0 ==> |r| > 0
  {
    CollapseRemovesOnlyHyphens(RewriteChars(Lower(value)));
    CollapseHyphens(RewriteChars(Lower(value)))
  }

  /** What one typed character becomes before runs of hyphens are
      collapsed: lowercase letters, digits and `-` pass through, `A`–`Z`
      become `a`–`z`, anything else becomes `-`. */
  function TypedCharRewrite(c: char): (r: char)
    ensures SlugChar(c) ==> r == c
    ensures IsUpper(c) ==> r == (c as int + 32) as char
    ensures !SlugChar(c) && !IsUpper(c) ==> r == '-'
  {
    RewriteChar(LowerChar(c))
  }

  /** Normalisation rewrites the input position by position and then only
      removes hyphens. */
  lemma {:induction false} NormalizeRewritesEachChar(value: string)
    ensures var mapped := RewriteChars(Lower(value));
      && |mapped| == |value|
      && (forall i :: 0 <= i < |value| ==> mapped[i] == TypedCharRewrite(value[i]))
      && WithoutHyphens(NormalizeSlug(value)) == WithoutHyphens(mapped)
  {
    CollapseRemovesOnlyHyphens(RewriteChars(Lower(value)));
  }

  lemma {:induction false} CollapseKeepsSingleHyphens(s: string)
    requires NoDoubleHyphen(s)
    ensures CollapseHyphens(s) == s
    decreases |s|
  {
    if |s| > 0 {
      assert NoDoubleHyphen(s[1..]);
      CollapseKeepsSingleHyphens(s[1..]);
      assert s == [s[0]] + s[1..];
    }
  }

  /** Every run of hyphens, however long, collapses as one hyphen would:
      with `CollapseKeepsSingleHyphens` this pins the collapse down. */
  lemma {:induction false} CollapseRun(a: string, h: string, b: string)
    requires |h| > 0 && forall i :: 0 <= i < |h| ==> h[i] == '-'
    ensures CollapseHyphens(a + h + b) == CollapseHyphens(a + "-" + b)
    decreases |a|
  {
    if |a| == 0 {
      assert a + h + b == h + b;
      assert a + "-" + b == "-" + b;
      CollapseRunStart(h, b);
    } else {
      var s, t := a + h + b, a + "-" + b;
      assert s[0] == t[0] == a[0];
      assert s[1..] == a[1..] + h + b;
      assert t[1..] == a[1..] + "-" + b;
      assert s[1] == t[1];
      CollapseRun(a[1..], h, b);
    }
  }

  lemma {:induction false} CollapseRunStart(h: string, b: string)
    requires |h| > 0 && forall i :: 0 <= i < |h| ==> h[i] == '-'
    ensures CollapseHyphens(h + b) == CollapseHyphens("-" + b)
    decreases |h|
  {
    if |h| == 1 {
      assert h == "-";
    } else {
      assert (h + b)[1..] == h[1..] + b;
      assert (h + b)[1] == '-';
      CollapseRunStart(h[1..], b);
    }
  }

  lemma {:induction false} RewriteKeepsSlugChars(s: string)
    requires AllSlugChars(s)
    ensures RewriteChars(Lower(s)) == s
  {
    var m := RewriteChars(Lower(s));
    assert forall i :: 0 <= i < |s| ==> m[i] == s[i];
  }

  /** Normalising twice is normalising once: a normalised slug typed back
      into the field comes out unchanged. */
  lemma {:induction false} NormalizeIdempotent(value: string)
    ensures NormalizeSlug(NormalizeSlug(value)) == NormalizeSlug(value)
  {
    var s := NormalizeSlug(value);
    RewriteKeepsSlugChars(s);
    CollapseKeepsSingleHyphens(s);
  }

  // ---------------------------------------------------------------------
  // The restaurant-name field fills in the slug
  // ---------------------------------------------------------------------

  datatype SignupForm = SignupForm(email: string, password: string, restaurantName: string, slug: string)

  /** Typing into the slug field. */
  function OnSlugInput(f: SignupForm, value: string): (r: SignupForm)
    ensures r.slug == NormalizeSlug(value)
    ensures r.(slug := f.slug) == f
  {
    f.(slug := NormalizeSlug(value))
  }

  /** Typing into the restaurant-name field: the name is stored, and the
      slug is derived from the name only while the slug field is empty. */
  function OnRestaurantNameInput(f: SignupForm, value: string): (r: SignupForm)
    ensures r.restaurantName == value
    ensures f.slug != "" ==> r.slug == f.slug
    ensures f.slug == "" ==> r.slug == NormalizeSlug(value)
    ensures r.email == f.email && r.password == f.password
  {
    var named := f.(restaurantName := value);
    if f.slug == "" then OnSlugInput(named, value) else named
  }

  /** The form after the first `k` keystrokes of typing `name` into the
      restaurant-name field, one character at a time. */
  function TypeName(f: SignupForm, name: string, k: nat): SignupForm
    requires k <= |name|
  {
    if k == 0 then f else OnRestaurantNameInput(TypeName(f, name, k - 1), name[..k])
  }

  /** As written, the slug follows only the first keystroke: once it holds
      the first character the slug field is no longer empty, so the rest
      of the name never reaches it. */
  lemma {:induction false} TypedNameFillsFirstCharOnly(f: SignupForm, name: string, k: nat)
    requires f.slug == "" && 1 <= k <= |name|
    ensures TypeName(f, name, k).slug == NormalizeSlug(name[..1])
    ensures TypeName(f, name, k).restaurantName == name[..k]
    decreases k
  {
    if k > 1 {
      TypedNameFillsFirstCharOnly(f, name, k - 1);
    }
  }

  /** Typing "Thai" into an empty form leaves the slug at "t", not "thai". */
  lemma TypingThaiGivesT()
    ensures TypeName(SignupForm("", "", "", ""), "Thai", 4).slug == "t"
    ensures NormalizeSlug("Thai") == "thai"
  {
    var name := "Thai";
    TypedNameFillsFirstCharOnly(SignupForm("", "", "", ""), name, 4);
    assert name[..1] == "T";
    NormalizeCapitalT();
    NormalizeThai();
  }

  lemma NormalizeCapitalT()
    ensures NormalizeSlug("T") == "t"
  {
    assert Lower("T") == "t";
    assert RewriteChars("t") == "t";
    assert CollapseHyphens("t") == "t";
  }

  lemma NormalizeThai()
    ensures NormalizeSlug("Thai") == "thai"
  {
    assert Lower("Thai") == "thai";
    assert RewriteChars("thai") == "thai";
    CollapseKeepsSingleHyphens("thai");
  }

  /** The evidently intended rule: the slug follows the restaurant name
      until the owner types into the slug field. */
  datatype SignupState = SignupState(form: SignupForm, slugEdited: bool)

  function OnRestaurantNameInputFixed(st: SignupState, value: string): (r: SignupState)
    ensures r.form.restaurantName == value
    ensures r.slugEdited == st.slugEdited
    ensures st.slugEdited ==> r.form.slug == st.form.slug
    ensures !st.slugEdited ==> r.form.slug == NormalizeSlug(value)
  {
    var named := st.form.(restaurantName := value);
    SignupState(if st.slugEdited then named else OnSlugInput(named, value), st.slugEdited)
  }

  function OnSlugInputFixed(st: SignupState, value: string): (r: SignupState)
    ensures r.form.slug == NormalizeSlug(value) && r.slugEdited
  {
    SignupState(OnSlugInput(st.form, value), true)
  }

  function TypeNameFixed(st: SignupState, name: string, k: nat): SignupState
    requires k <= |name|
  {
    if k == 0 then st else OnRestaurantNameInputFixed(TypeNameFixed(st, name, k - 1), name[..k])
  }

  /** With the corrected rule, typing a name keystroke by keystroke leaves
      the slug equal to the normalised name typed so far; once the owner
      has edited the slug, the name no longer touches it. */
  lemma {:induction false} TypedNameFillsWholeSlug(st: SignupState, name: string, k: nat)
    requires 1 <= k <= |name|
    ensures TypeNameFixed(st, name, k).slugEdited == st.slugEdited
    ensures !st.slugEdited ==> TypeNameFixed(st, name, k).form.slug == NormalizeSlug(name[..k])
    ensures st.slugEdited ==> TypeNameFixed(st, name, k).form.slug == st.form.slug
    decreases k
  {
    var prev := TypeNameFixed(st, name, k - 1);
    if k > 1 {
      TypedNameFillsWholeSlug(st, name, k - 1);
    }
    assert prev.slugEdited == st.slugEdited;
    assert prev.slugEdited ==> prev.form.slug == st.form.slug;
  }
}
