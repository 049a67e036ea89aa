/** generateJobName: sanitise the step name, put it behind a fixed prefix and a short execution ID, clip the
    result to 63 octets and drop trailing hyphens. A step name is a sequence of characters (ToLower and Map
    work rune by rune and leave only ASCII); the execution ID is a string of octets. */
module JobName {

  const MAX_JOB_NAME_LENGTH := 63
  const SHORT_ID_LENGTH := 8
  const PREFIX := "aeneas-"
  /** What is left for the step once "aeneas-", the short ID and the second hyphen are in. */
  const ROOM := 47

  predicate IsLower(c: char) { 'a' <= c <= 'z' }

  predicate IsDigit(c: char) { '0' <= c <= '9' }

  predicate IsHex(c: char) { IsDigit(c) || 'a' <= c <= 'f' }

  predicate Kept(c: char) { IsLower(c) || IsDigit(c) || c == '-' }

  function Map(f: char -> char, s: string): (r: string)
    ensures |r| == |s| && forall i :: 0 <= i < |s| ==> r[i] == f(s[i])
  {
    if s == [] then [] else [f(s[0])] + Map(f, s[1..])
  }

  function Clean(c: char): char { if Kept(c) then c else '-' }

  function TrimLeft(s: string): string {
    if s != [] && s[0] == '-' then TrimLeft(s[1..]) else s
  }

  function TrimRight(s: string): (r: string)
    ensures r <= s
  {
    if s != [] && s[|s| - 1] == '-' then TrimRight(s[..|s| - 1]) else s
  }

  function Trim(s: string): string { TrimRight(TrimLeft(s)) }

  function Take(s: string, n: nat): string { if |s| <= n then s else s[..n] }

  /** The step's part of a name before clipping; `lower` is the library's letter mapping. */
  function Sanitized(stepName: string, lower: char -> char): string {
    Trim(Map(Clean, Map(lower, stepName)))
  }

  /** What clipping leaves of the step's part. */
  function Tail(sanitized: string): string { TrimRight(Take(sanitized, ROOM)) }

  /** A name by its parts: the head, always whole, and after a hyphen what is left of the step, if anything. */
  function Name(shortID: string, sanitized: string): string {
    PREFIX + shortID + if Tail(sanitized) == [] then [] else "-" + Tail(sanitized)
  }

  /** generateJobName, local by local. Slicing an ID shorter than 8 octets panics, so callers must not. An ID
      whose eighth octet is a hyphen would be eaten into by the last trim; no UUID has one there. */
  method GenerateJobName(executionID: string, stepName: string, lower: char -> char) returns (jobName: string)
    requires |executionID| >= SHORT_ID_LENGTH
    ensures executionID[SHORT_ID_LENGTH - 1] != '-' ==>
              jobName == Name(executionID[..SHORT_ID_LENGTH], Sanitized(stepName, lower))
    ensures var whole := "aeneas-" + executionID[..8] + "-" + Sanitized(stepName, lower);
            var clipped := if |whole| > 63 then whole[..63] else whole;
            && jobName <= clipped && Hyphens(clipped[|jobName|..])
            && (jobName == [] || jobName[|jobName| - 1] != '-')
  {
    var sanitized := Map(lower, stepName);
    sanitized := Map(Clean, sanitized);
    sanitized := Trim(sanitized);
    var shortExecID := executionID[..SHORT_ID_LENGTH];
    jobName := PREFIX + shortExecID + "-" + sanitized;
    if |jobName| > MAX_JOB_NAME_LENGTH {
      jobName := jobName[..MAX_JOB_NAME_LENGTH];
    }
    ClipByParts(PREFIX + shortExecID + "-", sanitized);
    TrimRightSpec(jobName);
    jobName := TrimRight(jobName);
    if executionID[SHORT_ID_LENGTH - 1] != '-' {
      NameByParts(shortExecID, sanitized);
    }
  }

  // ---------------------------------------------------------------- trimming

  predicate Hyphens(s: string) {
    forall i :: 0 <= i < |s| ==> s[i] == '-'
  }

  /** Nothing to trim at either end. */
  predicate Trimmed(s: string) {
    s == [] || (s[0] != '-' && s[|s| - 1] != '-')
  }

  lemma {:induction false} TrimRightSpec(s: string)
    ensures TrimRight(s) == [] || TrimRight(s)[|TrimRight(s)| - 1] != '-'
    ensures Hyphens(s[|TrimRight(s)|..])
  {
    if s != [] && s[|s| - 1] == '-' {
      TrimRightSpec(s[..|s| - 1]);
      var k := |TrimRight(s)|;
      forall i | 0 <= i < |s[k..]| ensures s[k..][i] == '-' {
        assert i < |s[k..]| - 1 ==> s[..|s| - 1][k..][i] == '-';
      }
    }
  }

  lemma {:induction false} TrimLeftSpec(s: string)
    ensures |TrimLeft(s)| <= |s| && TrimLeft(s) == s[|s| - |TrimLeft(s)|..]
    ensures TrimLeft(s) == [] || TrimLeft(s)[0] != '-'
    ensures Hyphens(s[..|s| - |TrimLeft(s)|])
  {
    if s != [] && s[0] == '-' {
      TrimLeftSpec(s[1..]);
      var k := |s| - |TrimLeft(s)|;
      forall i | 0 <= i < k ensures s[..k][i] == '-' {
        assert i > 0 ==> s[1..][..k - 1][i - 1] == '-';
      }
    }
  }

  /** Trim splits a string into hyphens, a string with none at its ends, and hyphens; a string that has none at
      its ends stays as it is. */
  lemma {:induction false} TrimSpec(s: string)
    ensures exists a, b :: Hyphens(a) && Hyphens(b) && s == a + Trim(s) + b
    ensures Trimmed(Trim(s))
    ensures Trimmed(s) ==> Trim(s) == s
  {
    TrimLeftSpec(s);
    var t := TrimLeft(s);
    TrimRightSpec(t);
    var a, b := s[..|s| - |t|], t[|Trim(s)|..];
    assert s == a + Trim(s) + b;
  }

  lemma {:induction false} TrimRightAppend(head: string, s: string)
    ensures TrimRight(head + s) == if TrimRight(s) == [] then TrimRight(head) else head + TrimRight(s)
    decreases |s|
  {
    if s == [] {
      assert head + s == head;
    } else if s[|s| - 1] == '-' {
      assert (head + s)[..|head + s| - 1] == head + s[..|s| - 1];
      TrimRightAppend(head, s[..|s| - 1]);
    } else {
      assert (head + s)[|head + s| - 1] == s[|s| - 1];
    }
  }

  lemma {:induction false} ClipByParts(head: string, s: string)
    requires |head| == MAX_JOB_NAME_LENGTH - ROOM
    ensures Take(head + s, MAX_JOB_NAME_LENGTH) == head + Take(s, ROOM)
  {
  }

  lemma {:induction false} NameByParts(shortID: string, sanitized: string)
    requires |shortID| == SHORT_ID_LENGTH && shortID[SHORT_ID_LENGTH - 1] != '-'
    ensures TrimRight((PREFIX + shortID + "-") + Take(sanitized, ROOM)) == Name(shortID, sanitized)
  {
    var head := PREFIX + shortID;
    TrimRightAppend(head + "-", Take(sanitized, ROOM));
    TrimRightAppend(head, "-");
    assert TrimRight("-") == TrimRight("-"[..0]) == [];
    assert head[|head| - 1] == shortID[SHORT_ID_LENGTH - 1];
    assert Tail(sanitized) != [] ==> (head + "-") + Tail(sanitized) == head + ("-" + Tail(sanitized));
  }

  // ---------------------------------------------------------------- grammar, prefix, identity

  predicate LabelCharacter(c: char) { 'a' <= c <= 'z' || '0' <= c <= '9' || c == '-' }

  /** A label in the preferred syntax of section 2.3.1 of RFC 1035, within the 63 octets of section 2.3.4. */
  predicate Label(s: string) {
    && 1 <= |s| <= 63
    && 'a' <= s[0] <= 'z'
    && s[|s| - 1] != '-'
    && forall i :: 0 <= i < |s| ==> LabelCharacter(s[i])
  }

  predicate ShortID(id: string) {
    |id| == 8 && forall i :: 0 <= i < |id| ==> IsHex(id[i])
  }

  lemma {:induction false} SanitizedIsClean(stepName: string, lower: char -> char)
    ensures var s := Sanitized(stepName, lower);
            Trimmed(s) && |s| <= |stepName| && forall i :: 0 <= i < |s| ==> Kept(s[i])
  {
    var m := Map(Clean, Map(lower, stepName));
    TrimSpec(m);
    var a, b :| Hyphens(a) && Hyphens(b) && m == a + Trim(m) + b;
    var s := Trim(m);
    forall i | 0 <= i < |s| ensures Kept(s[i]) {
      assert s[i] == m[|a| + i];
    }
  }

  /** What sanitising makes of a lower-cased character. */
  function KeptOrHyphen(c: char): char {
    if 'a' <= c <= 'z' || '0' <= c <= '9' || c == '-' then c else '-'
  }

  /** Sanitising, character by character: lower-cased letters, digits and hyphens stay, everything else turns
      into a hyphen, and then the hyphens at both ends go. */
  lemma {:induction false} SanitizedByCharacter(stepName: string, lower: char -> char)
    ensures var s := Sanitized(stepName, lower);
            && (s == [] || (s[0] != '-' && s[|s| - 1] != '-'))
            && exists a, b ::
                 && Hyphens(a) && Hyphens(b) && |a + s + b| == |stepName|
                 && forall i :: 0 <= i < |stepName| ==> (a + s + b)[i] == KeptOrHyphen(lower(stepName[i]))
  {
    var m := Map(Clean, Map(lower, stepName));
    TrimSpec(m);
    var a, b :| Hyphens(a) && Hyphens(b) && m == a + Trim(m) + b;
    assert forall i :: 0 <= i < |stepName| ==> (a + Trim(m) + b)[i] == KeptOrHyphen(lower(stepName[i]));
  }

  /** For every step name and every short ID of hexadecimal digits the name is a label. */
  lemma {:induction false} NameIsALabel(shortID: string, stepName: string, lower: char -> char)
    requires ShortID(shortID)
    ensures Label(Name(shortID, Sanitized(stepName, lower)))
    ensures "aeneas-" + shortID <= Name(shortID, Sanitized(stepName, lower))
  {
    SanitizedIsClean(stepName, lower);
    var s := Sanitized(stepName, lower);
    TrimRightSpec(Take(s, ROOM));
    var tail := Tail(s);
    assert tail <= Take(s, ROOM) <= s;
    var n := Name(shortID, s);
    if tail == [] {
      assert n == PREFIX + shortID;
      assert IsHex(shortID[7]);
    } else {
      assert n == (PREFIX + shortID) + ("-" + tail);
      assert n[|n| - 1] == tail[|tail| - 1] == s[|tail| - 1];
    }
    forall i | 0 <= i < |n| ensures LabelCharacter(n[i]) {
      if i < 7 {
        assert n[i] == PREFIX[i];
      } else if i < 15 {
        assert n[i] == shortID[i - 7] && IsHex(shortID[i - 7]);
      } else if i > 15 {
        assert n[i] == tail[i - 16] == s[i - 16];
      }
    }
  }

  /** Two names agree exactly when the short IDs agree and so do the first 47 characters of the sanitised steps,
      without trailing hyphens. So different short IDs never collide. Under one short ID, steps collide when
      they agree on the first 47 sanitised characters, and steps that fit collide exactly when they sanitise
      alike; the caller draws a fresh ID for every step it runs. */
  lemma {:induction false} NamesAgreeIff(id1: string, id2: string, step1: string, step2: string, lower: char -> char)
    requires |id1| == |id2| == SHORT_ID_LENGTH
    ensures var s1, s2 := Sanitized(step1, lower), Sanitized(step2, lower);
            && (Name(id1, s1) == Name(id2, s2) <==> id1 == id2 && Tail(s1) == Tail(s2))
            && (|s1| <= 47 && |s2| <= 47 ==> (Name(id1, s1) == Name(id2, s2) <==> id1 == id2 && s1 == s2))
  {
    var s1, s2 := Sanitized(step1, lower), Sanitized(step2, lower);
    HeadAndTail(id1, s1);
    HeadAndTail(id2, s2);
    SanitizedIsClean(step1, lower);
    SanitizedIsClean(step2, lower);
  }

  lemma {:induction false} HeadAndTail(id: string, s: string)
    requires |id| == SHORT_ID_LENGTH
    ensures |Name(id, s)| >= 15 && Name(id, s)[7..15] == id
    ensures |Name(id, s)| == 15 <==> Tail(s) == []
    ensures |Name(id, s)| > 15 ==> |Name(id, s)| > 16 && Name(id, s)[16..] == Tail(s)
    ensures Trimmed(s) && |s| <= ROOM ==> Tail(s) == s
  {
    var n := Name(id, s);
    assert forall i :: 7 <= i < 15 ==> n[i] == id[i - 7];
    if Tail(s) != [] {
      assert n == (PREFIX + id + "-") + Tail(s);
    }
  }

  lemma {:induction false} MapKeeps(f: char -> char, s: string)
    requires forall i :: 0 <= i < |s| ==> f(s[i]) == s[i]
    ensures Map(f, s) == s
  {
    assert forall i :: 0 <= i < |s| ==> Map(f, s)[i] == s[i];
  }

  /** Naming with a step name that is already sanitised gives the same name; ToLower fixes the characters that
      sanitising leaves. */
  lemma {:induction false} SanitizingIsIdempotent(stepName: string, lower: char -> char)
    requires forall c :: Kept(c) ==> lower(c) == c
    ensures Sanitized(Sanitized(stepName, lower), lower) == Sanitized(stepName, lower)
    ensures Trimmed(stepName) && (forall i :: 0 <= i < |stepName| ==> Kept(stepName[i])) ==>
              Sanitized(stepName, lower) == stepName
  {
    SanitizedIsClean(stepName, lower);
    var s := Sanitized(stepName, lower);
    CleanStays(s, lower);
    if Trimmed(stepName) && forall i :: 0 <= i < |stepName| ==> Kept(stepName[i]) {
      CleanStays(stepName, lower);
    }
  }

  lemma {:induction false} CleanStays(s: string, lower: char -> char)
    requires forall c :: Kept(c) ==> lower(c) == c
    requires Trimmed(s) && forall i :: 0 <= i < |s| ==> Kept(s[i])
    ensures Sanitized(s, lower) == s
  {
    MapKeeps(lower, s);
    MapKeeps(Clean, s);
    TrimSpec(s);
  }
}
