/**
 Energy of a scope when several providers may report the same device: one
 source counts per device, whatever the spelling of its address.
 */
module Power {
  datatype Source = Source(provider: nat, scope: nat, valid: bool, id: string, joules: real)

  // ---- addresses without case -------------------------------------------------

  function Lower(c: char): char {
    if 'A' <= c <= 'Z' then c + 32 as char else c
  }

  function LowerCase(s: string): (r: string)
    ensures |r| == |s|
  {
    seq(|s|, i requires 0 <= i < |s| => Lower(s[i]))
  }

  /** strcasecmp finds no difference. */
  predicate SameDevice(a: string, b: string) {
    LowerCase(a) == LowerCase(b)
  }

  /** One letter in two cases. */
  predicate CasesOf(upper: char, lower: char) {
    'A' <= upper <= 'Z' && lower as int == upper as int + 32
  }

  /** Each pair of characters is the same but for case. */
  predicate CasesOnly(a: string, b: string)
    requires |a| == |b|
  {
    forall i :: 0 <= i < |a| ==> a[i] == b[i] || CasesOf(a[i], b[i]) || CasesOf(b[i], a[i])
  }

  /** Two spellings are of one device exactly if they differ in the case of ASCII
      letters only. */
  lemma SameDeviceIs(a: string, b: string)
    ensures SameDevice(a, b) <==> |a| == |b| && CasesOnly(a, b)
  {
    hide Lower, CasesOf;
    if SameDevice(a, b) {
      forall i | 0 <= i < |a| ensures a[i] == b[i] || CasesOf(a[i], b[i]) || CasesOf(b[i], a[i]) {
        assert LowerCase(a)[i] == LowerCase(b)[i];
        LowerIs(a[i], b[i]);
      }
    } else if |a| == |b| && CasesOnly(a, b) {
      forall i | 0 <= i < |a| ensures LowerCase(a)[i] == LowerCase(b)[i] {
        LowerIs(a[i], b[i]);
      }
    }
  }

  lemma LowerIs(x: char, y: char)
    ensures Lower(x) == Lower(y) <==> x == y || CasesOf(x, y) || CasesOf(y, x)
  {
  }

  /** The comparison as it runs, character by character. */
  method CompareBlind(a: string, b: string) returns (same: bool)
    ensures same == SameDevice(a, b)
  {
    if |a| != |b| {
      return false;
    }
    for i := 0 to |a|
      invariant forall k :: 0 <= k < i ==> Lower(a[k]) == Lower(b[k])
    {
      if Lower(a[i]) != Lower(b[i]) {
        assert LowerCase(a)[i] != LowerCase(b)[i];
        return false;
      }
    }
    same := true;
  }

  // ---- which source speaks for a device ---------------------------------------

  /** A source that counts in a scope at all. */
  predicate Live(s: Source, scope: nat) {
    s.scope == scope && s.valid
  }

  /** Two live sources of one identified device. */
  predicate Rivals(src: seq<Source>, scope: nat, i: nat, j: nat)
    requires i < |src| && j < |src|
  {
    Live(src[i], scope) && Live(src[j], scope) && src[i].id != "" && SameDevice(src[i].id, src[j].id)
  }

  /** Source j comes before source i: a preferred provider, or the same one and
      an earlier place. */
  predicate Before(src: seq<Source>, j: nat, i: nat)
    requires i < |src| && j < |src|
  {
    src[j].provider < src[i].provider || (src[j].provider == src[i].provider && j < i)
  }

  /** The source that speaks for its device: the least of its rivals. */
  ghost predicate Speaks(src: seq<Source>, scope: nat, i: nat)
    requires i < |src|
  {
    Live(src[i], scope) && forall j: nat :: j < |src| && Rivals(src, scope, i, j) ==> !Before(src, j, i)
  }

  /** duplicate_of_earlier, for a live source. */
  method DuplicateOfEarlier(src: seq<Source>, scope: nat, i: nat) returns (dup: bool)
    requires i < |src| && Live(src[i], scope)
    ensures dup == !Speaks(src, scope, i)
  {
    if src[i].id == "" {
      return false;
    }
    for j := 0 to |src|
      invariant forall k: nat :: k < j && Rivals(src, scope, i, k) ==> !Before(src, k, i)
    {
      if j == i || src[j].scope != scope || !src[j].valid || src[j].id == "" {
        assert src[j].id == "" ==> LowerCase(src[j].id) == "" != LowerCase(src[i].id);
        continue;
      }
      var same := CompareBlind(src[j].id, src[i].id);
      if !same {
        continue;
      }
      if src[j].provider < src[i].provider || (src[j].provider == src[i].provider && j < i) {
        assert Rivals(src, scope, i, j) && Before(src, j, i);
        return true;
      }
    }
    dup := false;
  }

  /** No device counts twice: of two sources of one device at most one speaks. */
  lemma OneSpeaker(src: seq<Source>, scope: nat, i: nat, j: nat)
    requires i < |src| && j < |src| && i != j && Rivals(src, scope, i, j)
    ensures !(Speaks(src, scope, i) && Speaks(src, scope, j))
  {
    assert LowerCase(src[i].id) == LowerCase(src[j].id);
    assert Rivals(src, scope, j, i);
    assert Before(src, i, j) || Before(src, j, i);
  }

  /** Who speaks has the lowest provider number of its device's sources, and the
      first place among those of that provider. */
  lemma SpeakerIsPreferred(src: seq<Source>, scope: nat, i: nat, j: nat)
    requires i < |src| && j < |src| && Speaks(src, scope, i) && Rivals(src, scope, i, j)
    ensures src[i].provider <= src[j].provider && (src[i].provider == src[j].provider ==> i <= j)
  {
    assert !Before(src, j, i);
  }

  /** No device is left out: every identified live source has a speaker. */
  lemma {:induction false} SomeSpeaker(src: seq<Source>, scope: nat, i: nat) returns (r: nat)
    requires i < |src| && Live(src[i], scope) && src[i].id != ""
    ensures r < |src| && Rivals(src, scope, i, r) && Speaks(src, scope, r)
    decreases src[i].provider, i
  {
    if Speaks(src, scope, i) {
      r := i;
    } else {
      var j: nat :| j < |src| && Rivals(src, scope, i, j) && Before(src, j, i);
      assert |LowerCase(src[j].id)| == |LowerCase(src[i].id)|;
      r := SomeSpeaker(src, scope, j);
    }
  }

  // ---- the scope's energy -----------------------------------------------------

  /** What the speakers among the first n sources report. */
  ghost function Spoken(src: seq<Source>, scope: nat, n: nat): real
    requires n <= |src|
  {
    if n == 0 then 0.0
    else Spoken(src, scope, n - 1) + if Speaks(src, scope, n - 1) then src[n - 1].joules else 0.0
  }

  /** A scope with one live source gets what that reports, however many dead or
      foreign ones there are. */
  lemma {:induction false} SpokenAlone(src: seq<Source>, scope: nat, n: nat, only: nat)
    requires n <= |src| && only < |src| && Live(src[only], scope)
    requires forall i :: 0 <= i < |src| && i != only ==> !Live(src[i], scope)
    ensures Spoken(src, scope, n) == if only < n then src[only].joules else 0.0
  {
    if n > 0 {
      SpokenAlone(src, scope, n - 1, only);
      assert Speaks(src, scope, only);
    }
  }

  /** Two live sources of one device: only the preferred one's report counts. */
  lemma SpokenOnce(s: Source, t: Source, scope: nat)
    requires Live(s, scope) && Live(t, scope) && s.id != "" && SameDevice(s.id, t.id)
    ensures Spoken([s, t], scope, 2) == if t.provider < s.provider then t.joules else s.joules
    ensures Spoken([t, s], scope, 2) == if t.provider <= s.provider then t.joules else s.joules
  {
    hide SameDevice;
    Symmetric(s, t);
    SpokenPair(s, t, scope);
    SpokenPair(t, s, scope);
  }

  lemma Symmetric(s: Source, t: Source)
    requires s.id != "" && SameDevice(s.id, t.id)
    ensures SameDevice(t.id, s.id) && t.id != "" && SameDevice(s.id, s.id)
  {
    assert |LowerCase(t.id)| == |LowerCase(s.id)|;
  }

  lemma SpokenPair(s: Source, t: Source, scope: nat)
    requires Live(s, scope) && Live(t, scope) && s.id != "" && t.id != ""
    requires SameDevice(s.id, t.id) && SameDevice(t.id, s.id)
    ensures Spoken([s, t], scope, 2) == if t.provider < s.provider then t.joules else s.joules
  {
    hide SameDevice;
    var src := [s, t];
    assert Rivals(src, scope, 0, 1) && Rivals(src, scope, 1, 0);
    assert Speaks(src, scope, 1) ==> !Before(src, 0, 1);
    assert Spoken(src, scope, 2) == Spoken(src, scope, 1) + if Speaks(src, scope, 1) then t.joules else 0.0;
    assert Spoken(src, scope, 1) == Spoken(src, scope, 0) + if Speaks(src, scope, 0) then s.joules else 0.0;
  }

  /** vb_power_scope_joules: the speakers' energy, each device once; -1 exactly
      if the scope has no live source. */
  method ScopeJoules(src: seq<Source>, scope: nat) returns (joules: real)
    ensures (exists i :: 0 <= i < |src| && Live(src[i], scope)) ==> joules == Spoken(src, scope, |src|)
    ensures (forall i :: 0 <= i < |src| ==> !Live(src[i], scope)) ==> joules == -1.0
  {
    var total, found := 0.0, false;
    for i := 0 to |src|
      invariant total == Spoken(src, scope, i)
      invariant found == exists k: nat :: k < i && Speaks(src, scope, k)
    {
      if src[i].scope != scope || !src[i].valid {
        assert !Speaks(src, scope, i);
        continue;
      }
      var dup := DuplicateOfEarlier(src, scope, i);
      if dup {
        continue;
      }
      total := total + src[i].joules;
      found := true;
    }
    joules := if found then total else -1.0;
    if i :| 0 <= i < |src| && Live(src[i], scope) {
      if src[i].id == "" {
        assert Speaks(src, scope, i);
      } else {
        var r := SomeSpeaker(src, scope, i);
      }
    } else {
      assert forall k: nat :: k < |src| ==> !Speaks(src, scope, k);
    }
  }
}
