/**
 * returnKeyIdsFromEmails: resolve the recipients' emails to master key
 * ids. Each email is looked up in the key database (only non-revoked,
 * non-expired keys match). No match puts the email on the missing list;
 * one match contributes its key id; a second match also contributes the
 * second key id (a pre-selection) and puts the email on the duplicate list.
 * An absent or empty list, or any missing or duplicate email, makes the
 * user confirm the selection; otherwise the ids are returned.
 */
module EmailKeyResolution {
  import opened Wrappers
  import opened ApiTypes
  import opened PendingIntents
  import opened Results
  import opened Collaborators

  /** The ids a query contributes: the first row, then the second if any. */
  function FirstTwo(rows: seq<KeyId>): (ids: seq<KeyId>)
    ensures |ids| == if |rows| < 2 then |rows| else 2
    ensures ids == rows[..|ids|]
  {
    if |rows| <= 2 then rows else rows[..2]
  }

  /** The key ids pre-selected for `emails`, in order. */
  function PreselectedKeyIds(emails: seq<string>, lookup: string -> seq<KeyId>): seq<KeyId>
    decreases |emails|
  {
    if emails == [] then []
    else PreselectedKeyIds(emails[..|emails| - 1], lookup) + FirstTwo(lookup(emails[|emails| - 1]))
  }

  /** The emails without any matching key, in order. */
  function MissingEmails(emails: seq<string>, lookup: string -> seq<KeyId>): seq<string>
    decreases |emails|
  {
    if emails == [] then []
    else
      var e := emails[|emails| - 1];
      MissingEmails(emails[..|emails| - 1], lookup) + (if |lookup(e)| == 0 then [e] else [])
  }

  /** The emails with two or more matching keys, in order. */
  function DuplicateEmails(emails: seq<string>, lookup: string -> seq<KeyId>): seq<string>
    decreases |emails|
  {
    if emails == [] then []
    else
      var e := emails[|emails| - 1];
      DuplicateEmails(emails[..|emails| - 1], lookup) + (if |lookup(e)| >= 2 then [e] else [])
  }

  /** The outcome of resolving a list of emails. */
  datatype EmailResolution = EmailResolution(
    keyIds: seq<KeyId>,
    missingEmails: seq<string>,
    duplicateEmails: seq<string>,
    noUserIdsCheck: bool
  )

  predicate NoUserIds(userIds: Option<seq<string>>) {
    userIds.None? || |userIds.value| == 0
  }

  function Resolve(userIds: Option<seq<string>>, lookup: string -> seq<KeyId>): (r: EmailResolution)
    ensures r.noUserIdsCheck <==> NoUserIds(userIds)
    ensures NoUserIds(userIds) ==> r.keyIds == [] && r.missingEmails == [] && r.duplicateEmails == []
    ensures !NoUserIds(userIds) ==>
              r.keyIds == PreselectedKeyIds(userIds.value, lookup) &&
              r.missingEmails == MissingEmails(userIds.value, lookup) &&
              r.duplicateEmails == DuplicateEmails(userIds.value, lookup)
  {
    if NoUserIds(userIds) then EmailResolution([], [], [], true)
    else
      var emails := userIds.value;
      EmailResolution(PreselectedKeyIds(emails, lookup), MissingEmails(emails, lookup),
                      DuplicateEmails(emails, lookup), false)
  }

  /** The user has to confirm or complete the selection. */
  predicate IsAmbiguous(r: EmailResolution) {
    r.noUserIdsCheck || |r.missingEmails| > 0 || |r.duplicateEmails| > 0
  }

  /** Every given email has exactly one usable key. */
  predicate EveryEmailHasOneKey(emails: seq<string>, lookup: string -> seq<KeyId>) {
    forall i :: 0 <= i < |emails| ==> |lookup(emails[i])| == 1
  }

  lemma {:induction false} MissingEmailsAreUnmatched(emails: seq<string>, lookup: string -> seq<KeyId>)
    ensures forall e :: e in MissingEmails(emails, lookup) <==> e in emails && |lookup(e)| == 0
    decreases |emails|
  {
    if emails != [] {
      var init := emails[..|emails| - 1];
      MissingEmailsAreUnmatched(init, lookup);
      assert emails == init + [emails[|emails| - 1]];
    }
  }

  lemma {:induction false} DuplicateEmailsAreMultiplyMatched(emails: seq<string>, lookup: string -> seq<KeyId>)
    ensures forall e :: e in DuplicateEmails(emails, lookup) <==> e in emails && |lookup(e)| >= 2
    decreases |emails|
  {
    if emails != [] {
      var init := emails[..|emails| - 1];
      DuplicateEmailsAreMultiplyMatched(init, lookup);
      assert emails == init + [emails[|emails| - 1]];
    }
  }

  /**
   * Resolution works email by email: resolving a concatenation of two lists
   * concatenates their pre-selections, missing lists and duplicate lists.
   */
  lemma {:induction false} PreselectionIsCompositional(a: seq<string>, b: seq<string>, lookup: string -> seq<KeyId>)
    ensures PreselectedKeyIds(a + b, lookup) == PreselectedKeyIds(a, lookup) + PreselectedKeyIds(b, lookup)
    decreases |b|
  {
    if b == [] {
      assert a + b == a;
    } else {
      var binit := b[..|b| - 1];
      var tail := FirstTwo(lookup(b[|b| - 1]));
      assert (a + b)[..|a + b| - 1] == a + binit;
      assert (a + b)[|a + b| - 1] == b[|b| - 1];
      calc {
        PreselectedKeyIds(a + b, lookup);
        PreselectedKeyIds(a + binit, lookup) + tail;
        { PreselectionIsCompositional(a, binit, lookup); }
        (PreselectedKeyIds(a, lookup) + PreselectedKeyIds(binit, lookup)) + tail;
        PreselectedKeyIds(a, lookup) + (PreselectedKeyIds(binit, lookup) + tail);
        PreselectedKeyIds(a, lookup) + PreselectedKeyIds(b, lookup);
      }
    }
  }

  lemma {:induction false} MissingIsCompositional(a: seq<string>, b: seq<string>, lookup: string -> seq<KeyId>)
    ensures MissingEmails(a + b, lookup) == MissingEmails(a, lookup) + MissingEmails(b, lookup)
    decreases |b|
  {
    if b == [] {
      assert a + b == a;
    } else {
      var binit := b[..|b| - 1];
      var tail := (if |lookup(b[|b| - 1])| == 0 then [b[|b| - 1]] else []);
      assert (a + b)[..|a + b| - 1] == a + binit;
      assert (a + b)[|a + b| - 1] == b[|b| - 1];
      calc {
        MissingEmails(a + b, lookup);
        MissingEmails(a + binit, lookup) + tail;
        { MissingIsCompositional(a, binit, lookup); }
        (MissingEmails(a, lookup) + MissingEmails(binit, lookup)) + tail;
        MissingEmails(a, lookup) + (MissingEmails(binit, lookup) + tail);
        MissingEmails(a, lookup) + MissingEmails(b, lookup);
      }
    }
  }

  lemma {:induction false} DuplicatesAreCompositional(a: seq<string>, b: seq<string>, lookup: string -> seq<KeyId>)
    ensures DuplicateEmails(a + b, lookup) == DuplicateEmails(a, lookup) + DuplicateEmails(b, lookup)
    decreases |b|
  {
    if b == [] {
      assert a + b == a;
    } else {
      var binit := b[..|b| - 1];
      var tail := (if |lookup(b[|b| - 1])| >= 2 then [b[|b| - 1]] else []);
      assert (a + b)[..|a + b| - 1] == a + binit;
      assert (a + b)[|a + b| - 1] == b[|b| - 1];
      calc {
        DuplicateEmails(a + b, lookup);
        DuplicateEmails(a + binit, lookup) + tail;
        { DuplicatesAreCompositional(a, binit, lookup); }
        (DuplicateEmails(a, lookup) + DuplicateEmails(binit, lookup)) + tail;
        DuplicateEmails(a, lookup) + (DuplicateEmails(binit, lookup) + tail);
        DuplicateEmails(a, lookup) + DuplicateEmails(b, lookup);
      }
    }
  }

  /**
   * What one email contributes: nothing and a missing entry when it has no
   * key, its key when it has one, and exactly its first two keys plus a
   * duplicate entry when it has more.
   */
  lemma SingleEmailResolution(e: string, lookup: string -> seq<KeyId>)
    ensures |lookup(e)| == 0 ==>
      PreselectedKeyIds([e], lookup) == [] && MissingEmails([e], lookup) == [e] && DuplicateEmails([e], lookup) == []
    ensures |lookup(e)| == 1 ==>
      PreselectedKeyIds([e], lookup) == [lookup(e)[0]] && MissingEmails([e], lookup) == [] && DuplicateEmails([e], lookup) == []
    ensures |lookup(e)| >= 2 ==>
      PreselectedKeyIds([e], lookup) == [lookup(e)[0], lookup(e)[1]] && MissingEmails([e], lookup) == []
      && DuplicateEmails([e], lookup) == [e]
  {
    assert [e][..0] == [];
  }

  /** On the exact path there is one key id per email, in input order. */
  lemma {:induction false} ExactPathOneIdPerEmail(emails: seq<string>, lookup: string -> seq<KeyId>)
    requires EveryEmailHasOneKey(emails, lookup)
    ensures |PreselectedKeyIds(emails, lookup)| == |emails|
    ensures forall i :: 0 <= i < |emails| ==> PreselectedKeyIds(emails, lookup)[i] == lookup(emails[i])[0]
    decreases |emails|
  {
    if emails != [] {
      var init := emails[..|emails| - 1];
      assert EveryEmailHasOneKey(init, lookup) by {
        forall i | 0 <= i < |init| ensures |lookup(init[i])| == 1 {
          assert init[i] == emails[i];
        }
      }
      ExactPathOneIdPerEmail(init, lookup);
    }
  }

  lemma {:induction false} NothingMissingOrDuplicate(emails: seq<string>, lookup: string -> seq<KeyId>)
    requires EveryEmailHasOneKey(emails, lookup)
    ensures MissingEmails(emails, lookup) == [] && DuplicateEmails(emails, lookup) == []
    decreases |emails|
  {
    if emails != [] {
      var init := emails[..|emails| - 1];
      assert EveryEmailHasOneKey(init, lookup) by {
        forall i | 0 <= i < |init| ensures |lookup(init[i])| == 1 {
          assert init[i] == emails[i];
        }
      }
      NothingMissingOrDuplicate(init, lookup);
    }
  }

  /** Resolution is exact exactly when a non-empty list has one key per email. */
  lemma ExactIffEveryEmailHasOneKey(userIds: Option<seq<string>>, lookup: string -> seq<KeyId>)
    ensures !IsAmbiguous(Resolve(userIds, lookup)) <==>
              !NoUserIds(userIds) && EveryEmailHasOneKey(userIds.value, lookup)
  {
    if !NoUserIds(userIds) {
      var emails := userIds.value;
      MissingEmailsAreUnmatched(emails, lookup);
      DuplicateEmailsAreMultiplyMatched(emails, lookup);
      var r := Resolve(userIds, lookup);
      if EveryEmailHasOneKey(emails, lookup) {
        NothingMissingOrDuplicate(emails, lookup);
      } else {
        var i :| 0 <= i < |emails| && |lookup(emails[i])| != 1;
        assert emails[i] in emails;
      }
    }
  }

  /** The result the service builds from a resolution. */
  function ResolutionResult(f: Factory, r: EmailResolution): Result {
    if IsAmbiguous(r) then
      InteractionRequired(f.CreateSelectPublicKeyPendingIntent(r.keyIds, r.missingEmails, r.duplicateEmails, r.noUserIdsCheck))
    else
      Success(KeyIdsPayload(r.keyIds), None)
  }

  /**
   * The answer of returnKeyIdsFromEmails. SUCCESS exactly when a non-empty
   * list has one key per email, and then with one id per email in input
   * order (so never an empty id list); otherwise a select-public-key token
   * with the pre-selection, the missing and duplicate emails, and the
   * no-user-ids flag.
   */
  function KeyIdsFromEmails(f: Factory, userIds: Option<seq<string>>, lookup: string -> seq<KeyId>): (r: Result)
    ensures r.Success? <==> !NoUserIds(userIds) && EveryEmailHasOneKey(userIds.value, lookup)
    ensures r.Success? ==>
      r.resultIntent.None? && r.payload.KeyIdsPayload? &&
      |r.payload.keyIds| == |userIds.value| > 0 &&
      forall i :: 0 <= i < |userIds.value| ==> r.payload.keyIds[i] == lookup(userIds.value[i])[0]
    ensures !r.Success? ==>
      r.InteractionRequired? && r.intent.data == f.pendingIntentData &&
      r.intent.activity == SelectPublicKey(Resolve(userIds, lookup).keyIds, NoUserIds(userIds),
                                           Resolve(userIds, lookup).missingEmails,
                                           Resolve(userIds, lookup).duplicateEmails)
  {
    ExactIffEveryEmailHasOneKey(userIds, lookup);
    if !NoUserIds(userIds) && EveryEmailHasOneKey(userIds.value, lookup) then
      ExactPathOneIdPerEmail(userIds.value, lookup);
      ResolutionResult(f, Resolve(userIds, lookup))
    else
      ResolutionResult(f, Resolve(userIds, lookup))
  }

  /**
   * An email with no usable key forces the interaction, whatever the
   * other emails resolve to, and is reported as missing.
   */
  lemma MissingEmailForcesInteraction(f: Factory, emails: seq<string>, lookup: string -> seq<KeyId>, i: nat)
    requires i < |emails| && |lookup(emails[i])| == 0
    ensures KeyIdsFromEmails(f, Some(emails), lookup).InteractionRequired?
    ensures emails[i] in KeyIdsFromEmails(f, Some(emails), lookup).intent.activity.missingEmails
  {
    MissingEmailsAreUnmatched(emails, lookup);
    assert emails[i] in emails;
  }

  /**
   * An email with several usable keys forces the interaction, is reported
   * as duplicate, and pre-selects its first two keys at its place in the list.
   */
  lemma DuplicateEmailForcesInteraction(f: Factory, emails: seq<string>, lookup: string -> seq<KeyId>, i: nat)
    requires i < |emails| && |lookup(emails[i])| >= 2
    ensures KeyIdsFromEmails(f, Some(emails), lookup).InteractionRequired?
    ensures emails[i] in KeyIdsFromEmails(f, Some(emails), lookup).intent.activity.duplicateEmails
    ensures var pre := PreselectedKeyIds(emails[..i], lookup);
            var ids := KeyIdsFromEmails(f, Some(emails), lookup).intent.activity.selectedMasterKeyIds;
            |ids| >= |pre| + 2 && ids[|pre|] == lookup(emails[i])[0] && ids[|pre| + 1] == lookup(emails[i])[1]
  {
    DuplicateEmailsAreMultiplyMatched(emails, lookup);
    assert emails[i] in emails;
    assert emails == emails[..i] + ([emails[i]] + emails[i + 1..]);
    PreselectionIsCompositional(emails[..i], [emails[i]] + emails[i + 1..], lookup);
    PreselectionIsCompositional([emails[i]], emails[i + 1..], lookup);
    SingleEmailResolution(emails[i], lookup);
  }

  /** No emails: no lookups, and the user is asked, with noUserIdsCheck set. */
  lemma NoEmailsAsksUser(f: Factory, userIds: Option<seq<string>>, lookup: string -> seq<KeyId>)
    requires NoUserIds(userIds)
    ensures KeyIdsFromEmails(f, userIds, lookup)
         == InteractionRequired(f.CreateSelectPublicKeyPendingIntent([], [], [], true))
  {
  }

  /** Resolving one more email of the list extends the three lists by that email's share. */
  lemma ResolutionStep(emails: seq<string>, i: nat, lookup: string -> seq<KeyId>)
    requires i < |emails|
    ensures var e := emails[i];
            && PreselectedKeyIds(emails[..i + 1], lookup) == PreselectedKeyIds(emails[..i], lookup) + FirstTwo(lookup(e))
            && MissingEmails(emails[..i + 1], lookup)
                 == MissingEmails(emails[..i], lookup) + (if |lookup(e)| == 0 then [e] else [])
            && DuplicateEmails(emails[..i + 1], lookup)
                 == DuplicateEmails(emails[..i], lookup) + (if |lookup(e)| >= 2 then [e] else [])
  {
    assert emails[..i + 1][..i] == emails[..i];
  }

  /** The list of ids copied into a new long[], element by element. */
  method ToArray(keyIds: seq<KeyId>) returns (keyIdsArray: array<KeyId>)
    ensures fresh(keyIdsArray) && keyIdsArray[..] == keyIds
  {
    keyIdsArray := new KeyId[|keyIds|];
    for j := 0 to keyIdsArray.Length
      invariant keyIdsArray[..j] == keyIds[..j]
    {
      keyIdsArray[j] := keyIds[j];
    }
  }

  /**
   * returnKeyIdsFromEmails as the service runs it: one query per email,
   * appending to the id, missing and duplicate lists and raising the two
   * flags, then copying the ids into an array. `lookups` counts the queries.
   */
  method ReturnKeyIdsFromEmails(data: Request, encryptionUserIds: Option<seq<string>>, svc: Services)
    returns (result: Result, ghost lookups: nat)
    ensures result == KeyIdsFromEmails(Factory(svc.sdkInt, data), encryptionUserIds, svc.keysForEmail)
    ensures lookups == if NoUserIds(encryptionUserIds) then 0 else |encryptionUserIds.value|
  {
    var noUserIdsCheck := encryptionUserIds.None? || |encryptionUserIds.value| == 0;
    var missingUserIdsCheck := false;
    var duplicateUserIdsCheck := false;

    var keyIds: seq<KeyId> := [];
    var missingEmails: seq<string> := [];
    var duplicateEmails: seq<string> := [];
    lookups := 0;
    if !noUserIdsCheck {
      var emails := encryptionUserIds.value;
      var i := 0;
      while i < |emails|
        invariant 0 <= i <= |emails| && lookups == i
        invariant keyIds == PreselectedKeyIds(emails[..i], svc.keysForEmail)
        invariant missingEmails == MissingEmails(emails[..i], svc.keysForEmail)
        invariant duplicateEmails == DuplicateEmails(emails[..i], svc.keysForEmail)
        invariant missingUserIdsCheck <==> |missingEmails| > 0
        invariant duplicateUserIdsCheck <==> |duplicateEmails| > 0
      {
        ResolutionStep(emails, i, svc.keysForEmail);
        ghost var keyIdsBefore := keyIds;
        var email := emails[i];
        var cursor := svc.keysForEmail(email);
        lookups := lookups + 1;
        if |cursor| > 0 {
          keyIds := keyIds + [cursor[0]];
        } else {
          missingUserIdsCheck := true;
          missingEmails := missingEmails + [email];
        }
        if |cursor| > 1 {
          duplicateUserIdsCheck := true;
          duplicateEmails := duplicateEmails + [email];
          keyIds := keyIds + [cursor[1]];
        }
        assert keyIds == keyIdsBefore + FirstTwo(cursor);
        i := i + 1;
      }
      assert emails[..|emails|] == emails;
    }

    var keyIdsArray := ToArray(keyIds);

    assert EmailResolution(keyIds, missingEmails, duplicateEmails, noUserIdsCheck)
        == Resolve(encryptionUserIds, svc.keysForEmail);
    var piFactory := Factory(svc.sdkInt, data);
    if noUserIdsCheck || missingUserIdsCheck || duplicateUserIdsCheck {
      result := InteractionRequired(piFactory.CreateSelectPublicKeyPendingIntent(
        keyIdsArray[..], missingEmails, duplicateEmails, noUserIdsCheck));
    } else {
      result := Success(KeyIdsPayload(keyIdsArray[..]), None);
    }
  }
}
