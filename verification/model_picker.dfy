/**
  Choice of the default entry in the list of text-generation model names:
  the first name that mentions both "1.5-pro" and "latest", or the first
  entry of the list when no name does.
 */
module ModelPicker {

  /** `sub` occurs in `s` starting at offset `k`. */
  predicate OccursAt(sub: string, s: string, k: int)
  {
    0 <= k && k + |sub| <= |s| && s[k..k + |sub|] == sub
  }

  /** `sub` occurs in `s` at some offset: the meaning of Python's `sub in s` on strings. */
  ghost predicate OccursIn(sub: string, s: string)
  {
    exists k :: OccursAt(sub, s, k)
  }

  /** Substring test, scanning the candidate offsets from the left. */
  function Contains(s: string, sub: string): bool
    decreases |s|
  {
    if |sub| > |s| then false
    else if s[..|sub|] == sub then true
    else Contains(s[1..], sub)
  }

  /** The scan finds an occurrence exactly when there is one. */
  lemma {:induction false} ContainsIffOccurs(s: string, sub: string)
    ensures Contains(s, sub) <==> OccursIn(sub, s)
    decreases |s|
  {
    if |sub| > |s| {
    } else if s[..|sub|] == sub {
      assert OccursAt(sub, s, 0);
    } else {
      ContainsIffOccurs(s[1..], sub);
      if OccursIn(sub, s) {
        var k :| OccursAt(sub, s, k);
        assert k != 0;
        assert s[1..][k - 1..k - 1 + |sub|] == s[k..k + |sub|];
        assert OccursAt(sub, s[1..], k - 1);
      }
      if OccursIn(sub, s[1..]) {
        var k :| OccursAt(sub, s[1..], k);
        assert s[k + 1..k + 1 + |sub|] == s[1..][k..k + |sub|];
        assert OccursAt(sub, s, k + 1);
      }
    }
  }

  /** A name the selector prefers: the latest 1.5 Pro model. */
  predicate Preferred(name: string)
  {
    Contains(name, "1.5-pro") && Contains(name, "latest")
  }

  /** The index of the first preferred name at or after `from`, or `|names|` when there is none. */
  function FirstPreferredFrom(names: seq<string>, from: nat): (i: nat)
    requires from <= |names|
    ensures from <= i <= |names|
    ensures i < |names| ==> Preferred(names[i])
    ensures forall j :: from <= j < i ==> !Preferred(names[j])
    decreases |names| - from
  {
    if from == |names| then |names|
    else if Preferred(names[from]) then from
    else FirstPreferredFrom(names, from + 1)
  }

  /** The index pre-selected in the model list: the first preferred name, else 0. */
  function DefaultModelIndex(names: seq<string>): (i: nat)
    ensures |names| > 0 ==> i < |names|
    ensures |names| == 0 ==> i == 0
    ensures i > 0 ==> Preferred(names[i])
    ensures forall j :: 0 <= j < i ==> !Preferred(names[j])
    ensures (exists j :: 0 <= j < |names| && Preferred(names[j])) <==> i < |names| && Preferred(names[i])
  {
    var first := FirstPreferredFrom(names, 0);
    if first == |names| then 0 else first
  }

  /** A name is preferred exactly when both "1.5-pro" and "latest" occur in it. */
  lemma PreferredIffOccurs(name: string)
    ensures Preferred(name) <==> OccursIn("1.5-pro", name) && OccursIn("latest", name)
  {
    ContainsIffOccurs(name, "1.5-pro");
    ContainsIffOccurs(name, "latest");
  }

  /** Every name in which both "1.5-pro" and "latest" occur is preferred. */
  lemma LatestProIsPreferred(name: string)
    requires OccursIn("1.5-pro", name) && OccursIn("latest", name)
    ensures Preferred(name)
  {
    ContainsIffOccurs(name, "1.5-pro");
    ContainsIffOccurs(name, "latest");
  }

  /** No name without "latest" is preferred, whichever model it names. */
  lemma ProWithoutLatestIsNotPreferred(name: string)
    requires !OccursIn("latest", name)
    ensures !Preferred(name)
  {
    ContainsIffOccurs(name, "latest");
  }

  /** When no name mentions both "1.5-pro" and "latest", the first entry is chosen. */
  lemma DefaultModelIndexFallsBack(names: seq<string>)
    requires forall j :: 0 <= j < |names| ==> !(OccursIn("1.5-pro", names[j]) && OccursIn("latest", names[j]))
    ensures DefaultModelIndex(names) == 0
  {
    forall j | 0 <= j < |names|
      ensures !Preferred(names[j])
    {
      PreferredIffOccurs(names[j]);
    }
  }

  /** "1.5-pro-latest" is preferred. */
  lemma LatestProNameExample()
    ensures Preferred("1.5-pro-latest")
  {
    var name := "1.5-pro-latest";
    assert name[0..7] == "1.5-pro";
    assert OccursAt("1.5-pro", name, 0);
    assert name[8..14] == "latest";
    assert OccursAt("latest", name, 8);
    LatestProIsPreferred(name);
  }

  /** "1.0-pro" and "1.5-pro" are not preferred: neither says "latest". */
  lemma PlainProNamesExample()
    ensures !Preferred("1.0-pro") && !Preferred("1.5-pro")
  {
    var s, t := "1.0-pro", "1.5-pro";
    assert s[..6][0] != "latest"[0];
    assert s[1..][..6][0] != "latest"[0];
    assert !Contains(s[1..][1..], "latest");
    assert t[..6][0] != "latest"[0];
    assert t[1..][..6][0] != "latest"[0];
    assert !Contains(t[1..][1..], "latest");
  }

  /** The first "1.5-pro ... latest" entry is chosen, not the flash one after it. */
  lemma DefaultModelIndexPicksLatestPro()
    ensures DefaultModelIndex(["1.0-pro", "1.5-pro-latest", "1.5-flash-latest"]) == 1
  {
    var names := ["1.0-pro", "1.5-pro-latest", "1.5-flash-latest"];
    LatestProNameExample();
    PlainProNamesExample();
    assert FirstPreferredFrom(names, 1) == 1;
    assert FirstPreferredFrom(names, 0) == 1;
  }

  /** With only plain pro entries the first entry is chosen. */
  lemma DefaultModelIndexFallsBackExample()
    ensures DefaultModelIndex(["1.0-pro", "1.5-pro"]) == 0
  {
    var names := ["1.0-pro", "1.5-pro"];
    PlainProNamesExample();
    assert FirstPreferredFrom(names, 2) == 2;
    assert FirstPreferredFrom(names, 1) == 2;
    assert FirstPreferredFrom(names, 0) == 2;
  }
}
