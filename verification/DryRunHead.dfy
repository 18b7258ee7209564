/** Which head refs survive the dry run: the payload drops every "refs/heads/" from the ref, the
    gate only a leading one. */
module DryRunHead {
  import opened Text
  import opened Json
  import opened GateContext
  import opened HighRiskDryRun
  import GateEvidence

  ghost predicate Contains(s: string, w: string) {
    exists p: nat :: At(s, p, w)
  }

  lemma AtLater(s: string, p: nat, w: string)
    requires s != "" && p > 0
    ensures At(s, p, w) <==> At(s[1..], p - 1, w)
  {
    var rest, q, n := s[1..], p - 1, |w|;
    if p + n <= |s| {
      assert rest[q..q + n] == s[p..p + n];
    }
  }

  lemma ContainsLater(s: string, w: string)
    requires s != ""
    ensures Contains(s, w) <==> w <= s || Contains(s[1..], w)
  {
    if p: nat :| At(s, p, w) {
      if p > 0 {
        AtLater(s, p, w);
      }
    }
    if q: nat :| At(s[1..], q, w) {
      AtLater(s, q + 1, w);
    }
    if w <= s {
      assert At(s, 0, w);
    }
  }

  lemma StartIsContained(s: string, w: string)
    ensures w <= s ==> Contains(s, w)
  {
    if w <= s {
      assert At(s, 0, w);
    }
  }

  lemma {:induction false} NothingToRemove(s: string, w: string)
    requires w != "" && !Contains(s, w)
    ensures RemoveAll(s, w) == s
  {
    if s != "" {
      ContainsLater(s, w);
      NothingToRemove(s[1..], w);
      assert s == [s[0]] + s[1..];
    }
  }

  lemma {:induction false} RemovalShrinks(s: string, w: string)
    requires w != "" && Contains(s, w)
    ensures |RemoveAll(s, w)| <= |s| - |w|
  {
    assert s != "";
    ContainsLater(s, w);
    if !(w <= s) {
      RemovalShrinks(s[1..], w);
    }
  }

  /** What is left of the ref without a leading "refs/heads/". */
  function Rest(headRef: string): string {
    RemovePrefix(headRef, HEADS)
  }

  lemma RemovalOfRest(headRef: string)
    ensures RemoveAll(headRef, HEADS) == RemoveAll(Rest(headRef), HEADS)
  {
  }

  /** The ref the gate reads from the payload. */
  function ReadHead(headRef: string): Option<string> {
    NormalizeRef(StringOf(Str(RemoveAll(headRef, HEADS))))
  }

  /** A head ref whose rest is clean and holds no other "refs/heads/". */
  ghost predicate PlainHead(headRef: string) {
    Clean(Rest(headRef)) && !Contains(Rest(headRef), HEADS)
  }

  lemma StripShrinks(s: string)
    ensures |Strip(s)| <= |s| && (Strip(s) == s <==> Trimmed(s))
  {
    if Trimmed(s) {
      StripTrimmed(s);
    }
  }

  lemma ReadIsShort(headRef: string)
    requires ReadHead(headRef).Some?
    ensures |ReadHead(headRef).value| <= |Strip(RemoveAll(headRef, HEADS))|
  {
  }

  lemma NormalIsShort(s: string)
    requires NormalizeBindingRef(Str(s)).Some?
    ensures |NormalizeBindingRef(Str(s)).value| <= |s|
  {
    StripShrinks(s);
  }

  lemma BoundHead(headRef: string)
    requires Trimmed(headRef) && headRef != ""
    ensures NormalizeBindingRef(Str(headRef)) == Some(RemovePrefix(Rest(headRef), ORIGIN))
  {
    StripTrimmed(headRef);
  }

  lemma EmptyDisagrees()
    ensures ReadHead("") == None
  {
  }

  lemma PlainAgrees(headRef: string)
    requires Trimmed(headRef) && headRef != "" && PlainHead(headRef)
    ensures GateEvidence.RefMatches(Str(headRef), ReadHead(headRef))
  {
    var rest := Rest(headRef);
    RemovalOfRest(headRef);
    NothingToRemove(rest, HEADS);
    StringOfClean(rest);
    StartIsContained(rest, HEADS);
    BoundHead(headRef);
  }

  lemma ReadIsBound(headRef: string, n: nat)
    requires |Strip(RemoveAll(headRef, HEADS))| < n
    ensures ReadHead(headRef).Some? && NormalizeBindingRef(Str(ReadHead(headRef).value)).Some? ==>
            |NormalizeBindingRef(Str(ReadHead(headRef).value)).value| < n
  {
    if ReadHead(headRef).Some? {
      ReadIsShort(headRef);
      var read := ReadHead(headRef).value;
      if NormalizeBindingRef(Str(read)).Some? {
        NormalIsShort(read);
      }
    }
  }

  lemma NestedDisagrees(headRef: string)
    requires Trimmed(headRef) && headRef != "" && Contains(Rest(headRef), HEADS)
    ensures !GateEvidence.RefMatches(Str(headRef), ReadHead(headRef))
  {
    var rest := Rest(headRef);
    RemovalOfRest(headRef);
    RemovalShrinks(rest, HEADS);
    BoundHead(headRef);
    assert |ORIGIN| < |HEADS|;
    StripShrinks(RemoveAll(headRef, HEADS));
    ReadIsBound(headRef, |rest| - |ORIGIN|);
  }

  lemma PaddedStart(headRef: string)
    requires Trimmed(headRef) && Rest(headRef) != "" && !Clean(Rest(headRef))
    ensures IsSpace(Rest(headRef)[0]) && RemovePrefix(Rest(headRef), ORIGIN) == Rest(headRef)
    ensures !Trimmed(Rest(headRef))
  {
    var rest := Rest(headRef);
    assert rest[|rest| - 1] == headRef[|headRef| - 1];
    assert ORIGIN[0] == 'o';
  }

  lemma UncleanDisagrees(headRef: string)
    requires Trimmed(headRef) && headRef != "" && !Contains(Rest(headRef), HEADS) && !Clean(Rest(headRef))
    ensures !GateEvidence.RefMatches(Str(headRef), ReadHead(headRef))
  {
    var rest := Rest(headRef);
    RemovalOfRest(headRef);
    NothingToRemove(rest, HEADS);
    BoundHead(headRef);
    StripShrinks(rest);
    if rest != "" {
      PaddedStart(headRef);
      ReadIsBound(headRef, |rest|);
    }
  }

  /** The evidence and the payload of a run name the same head exactly when the ref, without a
      leading "refs/heads/", is clean and holds no other one. */
  lemma HeadAgreesIff(headRef: string)
    requires Trimmed(headRef)
    ensures GateEvidence.RefMatches(Str(headRef), ReadHead(headRef)) <==> PlainHead(headRef)
  {
    if headRef == "" {
      EmptyDisagrees();
    } else if PlainHead(headRef) {
      PlainAgrees(headRef);
    } else if Contains(Rest(headRef), HEADS) {
      NestedDisagrees(headRef);
    } else {
      UncleanDisagrees(headRef);
    }
  }
}
