/** The donation-interest controller: a recipient registers interest in a
    donation, the donor accepts it (which opens a chat), and the donor's inbox
    lists the interests addressed to them. Firestore is an in-memory store of
    collections keyed by document id. */
module Interests {
  import opened Wrappers

  /** A document id: one the code names, or one `add()` generates. */
  datatype DocId = Named(name: string) | Auto(n: nat)

  datatype UserProfile = UserProfile(name: Option<string>, fullName: Option<string>, username: Option<string>)

  datatype Donation = Donation(donorId: string, description: Option<string>, category: Option<string>)

  datatype Interest = Interest(
    donationId: string,
    donationTitle: Option<string>,
    donationCategory: Option<string>,
    donorId: string,
    donorName: string,
    recipientId: string,
    recipientName: string,
    status: string,
    chatId: Option<DocId>,
    createdAt: int)

  /** The two parties of an interest. */
  datatype Side = Donor | Recipient

  function PartyOf(i: Interest, side: Side): string {
    match side
    case Donor => i.donorId
    case Recipient => i.recipientId
  }

  datatype Chat = Chat(donationId: string, donationTitle: Option<string>, donationCategory: Option<string>,
                       donorId: string, donorName: string, recipientId: string, createdAt: int)

  datatype InterestResponse =
    | Created(interestId: DocId)          // `{ success: true, interestId }`
    | NotFound(message: string)           // 404
    | Conflict(message: string)           // 409
    | ChatIs(chatId: DocId)               // `{ chatId }`
    | Unauthorized                        // 401
    | Listing(data: map<DocId, Interest>)

  predicate TruthyText(s: Option<string>) { s.Some? && s.value != "" }

  /** `name || fullName || username || fallback`, for a profile that may be missing. */
  function DisplayName(profile: Option<UserProfile>, fallback: string): (r: string)
    ensures profile.None? ==> r == fallback
    ensures profile.Some? && TruthyText(profile.value.name) ==> r == profile.value.name.value
    ensures profile.Some? && !TruthyText(profile.value.name) && TruthyText(profile.value.fullName) ==>
      r == profile.value.fullName.value
    ensures (profile.Some? && !TruthyText(profile.value.name) && !TruthyText(profile.value.fullName)
             && TruthyText(profile.value.username)) ==> r == profile.value.username.value
    ensures (profile.Some? && !TruthyText(profile.value.name) && !TruthyText(profile.value.fullName)
             && !TruthyText(profile.value.username)) ==> r == fallback
  {
    if profile.None? then fallback
    else if TruthyText(profile.value.name) then profile.value.name.value
    else if TruthyText(profile.value.fullName) then profile.value.fullName.value
    else if TruthyText(profile.value.username) then profile.value.username.value
    else fallback
  }

  /** A displayed name is never empty when the fallback is not. */
  lemma DisplayNameNonEmpty(profile: Option<UserProfile>, fallback: string)
    requires fallback != ""
    ensures DisplayName(profile, fallback) != ""
  {
  }

  /** The id the duplicate check looks up: `${donationId}_${recipientId}`. */
  function InterestKey(donationId: string, recipientId: string): DocId {
    Named(donationId + "_" + recipientId)
  }

  function NewInterest(donationId: string, donation: Donation, donorName: string,
                       recipientId: string, recipientName: string, now: int): (i: Interest)
    ensures i.status == "pending" && i.chatId.None?
    ensures i.donationId == donationId && i.donorId == donation.donorId && i.recipientId == recipientId
  {
    Interest(donationId, donation.description, donation.category, donation.donorId, donorName,
             recipientId, recipientName, "pending", None, now)
  }

  class InterestStore {
    var users: map<string, UserProfile>
    var donations: map<string, Donation>
    var interests: map<DocId, Interest>
    var chats: map<DocId, Chat>
    var nextAuto: nat      // the next id `add()` hands out

    /** Every generated id in use is below `nextAuto`, so `add()` never reuses one. */
    predicate Valid()
      reads this
    {
      && (forall id :: id in interests && id.Auto? ==> id.n < nextAuto)
      && (forall id :: id in chats && id.Auto? ==> id.n < nextAuto)
    }

    constructor(users: map<string, UserProfile>, donations: map<string, Donation>)
      ensures Valid()
      ensures this.users == users && this.donations == donations
      ensures interests == map[] && chats == map[]
    {
      this.users := users;
      this.donations := donations;
      interests := map[];
      chats := map[];
      nextAuto := 0;
    }

    /** `createInterest` as written: the duplicate check reads the named id but
        the interest is stored under a generated one. */
    method CreateInterestAsWritten(recipientId: string, donationId: string, now: int)
      returns (resp: InterestResponse)
      requires Valid()
      modifies this
      ensures Valid()
      ensures users == old(users) && donations == old(donations) && chats == old(chats)
      ensures donationId !in old(donations) ==> resp == NotFound("Donation not found") && interests == old(interests)
      ensures donationId in old(donations) && InterestKey(donationId, recipientId) in old(interests) ==>
        resp == Conflict("Interest already sent") && interests == old(interests)
      ensures donationId in old(donations) && InterestKey(donationId, recipientId) !in old(interests) ==>
        && resp == Created(Auto(old(nextAuto)))
        && Auto(old(nextAuto)) !in old(interests)
        && interests == old(interests)[Auto(old(nextAuto)) := NewInterest(donationId, donations[donationId],
             DisplayName(if donations[donationId].donorId in users then Some(users[donations[donationId].donorId]) else None, "Unknown Donor"),
             recipientId, DisplayName(if recipientId in users then Some(users[recipientId]) else None, "Unknown User"), now)]
    {
      var recipientName := DisplayName(if recipientId in users then Some(users[recipientId]) else None, "Unknown User");
      if donationId !in donations {
        return NotFound("Donation not found");
      }
      var donation := donations[donationId];
      var donorName := DisplayName(if donation.donorId in users then Some(users[donation.donorId]) else None, "Unknown Donor");
      var key := InterestKey(donationId, recipientId);
      if key in interests {
        return Conflict("Interest already sent");
      }
      var id := Auto(nextAuto);
      interests := interests[id := NewInterest(donationId, donation, donorName, recipientId, recipientName, now)];
      nextAuto := nextAuto + 1;
      resp := Created(id);
    }

    /** `createInterest` storing the interest under the id its duplicate check
        reads, so one recipient holds at most one interest per donation. */
    method CreateInterest(recipientId: string, donationId: string, now: int)
      returns (resp: InterestResponse)
      requires Valid()
      modifies this
      ensures Valid()
      ensures users == old(users) && donations == old(donations) && chats == old(chats) && nextAuto == old(nextAuto)
      ensures donationId !in old(donations) ==> resp == NotFound("Donation not found") && interests == old(interests)
      ensures donationId in old(donations) && InterestKey(donationId, recipientId) in old(interests) ==>
        resp == Conflict("Interest already sent") && interests == old(interests)
      ensures donationId in old(donations) && InterestKey(donationId, recipientId) !in old(interests) ==>
        && resp == Created(InterestKey(donationId, recipientId))
        && interests == old(interests)[InterestKey(donationId, recipientId) := NewInterest(donationId, donations[donationId],
             DisplayName(if donations[donationId].donorId in users then Some(users[donations[donationId].donorId]) else None, "Unknown Donor"),
             recipientId, DisplayName(if recipientId in users then Some(users[recipientId]) else None, "Unknown User"), now)]
      ensures donationId in old(donations) ==> InterestKey(donationId, recipientId) in interests
    {
      var recipientName := DisplayName(if recipientId in users then Some(users[recipientId]) else None, "Unknown User");
      if donationId !in donations {
        return NotFound("Donation not found");
      }
      var donation := donations[donationId];
      var donorName := DisplayName(if donation.donorId in users then Some(users[donation.donorId]) else None, "Unknown Donor");
      var key := InterestKey(donationId, recipientId);
      if key in interests {
        return Conflict("Interest already sent");
      }
      interests := interests[key := NewInterest(donationId, donation, donorName, recipientId, recipientName, now)];
      resp := Created(key);
    }

    /** `acceptInterest`: a known interest without a chat gets one new chat and
        becomes accepted; an interest that already has a chat returns it unchanged. */
    method AcceptInterest(interestId: DocId, now: int) returns (resp: InterestResponse)
      requires Valid()
      modifies this
      ensures Valid()
      ensures users == old(users) && donations == old(donations)
      ensures interestId !in old(interests) ==>
        resp == NotFound("Interest not found") && interests == old(interests) && chats == old(chats)
      ensures interestId in old(interests) && old(interests)[interestId].chatId.Some? ==>
        resp == ChatIs(old(interests)[interestId].chatId.value)
        && interests == old(interests) && chats == old(chats)
      ensures interestId in old(interests) && old(interests)[interestId].chatId.None? ==>
        var i := old(interests)[interestId];
        var c := Auto(old(nextAuto));
        && c !in old(chats)
        && resp == ChatIs(c)
        && chats == old(chats)[c := Chat(i.donationId, i.donationTitle, i.donationCategory, i.donorId,
                                         i.donorName, i.recipientId, now)]
        && interests == old(interests)[interestId := i.(status := "accepted", chatId := Some(c))]
    {
      if interestId !in interests {
        return NotFound("Interest not found");
      }
      var interest := interests[interestId];
      if interest.chatId.Some? {
        return ChatIs(interest.chatId.value);
      }
      var chatId := Auto(nextAuto);
      chats := chats[chatId := Chat(interest.donationId, interest.donationTitle, interest.donationCategory,
                                    interest.donorId, interest.donorName, interest.recipientId, now)];
      nextAuto := nextAuto + 1;
      interests := interests[interestId := interest.(status := "accepted", chatId := Some(chatId))];
      resp := ChatIs(chatId);
    }

    /** The interests in which `userId` takes part on `side`. */
    function InterestsOf(side: Side, userId: string): (r: map<DocId, Interest>)
      reads this
      ensures forall id :: id in r <==> id in interests && PartyOf(interests[id], side) == userId
      ensures forall id :: id in r ==> r[id] == interests[id]
    {
      map id | id in interests && PartyOf(interests[id], side) == userId :: interests[id]
    }

    /** `getInterestsForDonor`: an anonymous or empty caller is refused. */
    method InterestsForDonor(caller: Option<string>) returns (resp: InterestResponse)
      ensures !TruthyText(caller) ==> resp == Unauthorized
      ensures TruthyText(caller) ==> resp == Listing(InterestsOf(Donor, caller.value))
    {
      if !TruthyText(caller) {
        return Unauthorized;
      }
      resp := Listing(InterestsOf(Donor, caller.value));
    }

    /** `getInterestsForRecipient`: an anonymous or empty caller is refused. */
    method InterestsForRecipient(caller: Option<string>) returns (resp: InterestResponse)
      ensures !TruthyText(caller) ==> resp == Unauthorized
      ensures TruthyText(caller) ==> resp == Listing(InterestsOf(Recipient, caller.value))
    {
      if !TruthyText(caller) {
        return Unauthorized;
      }
      resp := Listing(InterestsOf(Recipient, caller.value));
    }
  }

  /** As written, the same recipient can register interest in the same donation
      twice: both calls succeed and two interests exist. */
  method RepeatedInterestAsWritten(store: InterestStore, recipientId: string, donationId: string, now: int)
    returns (first: InterestResponse, second: InterestResponse)
    requires store.Valid()
    requires donationId in store.donations
    requires InterestKey(donationId, recipientId) !in store.interests
    modifies store
    ensures first.Created? && second.Created? && first.interestId != second.interestId
    ensures first.interestId in store.interests && second.interestId in store.interests
    ensures store.interests[first.interestId].recipientId == store.interests[second.interestId].recipientId == recipientId
    ensures store.interests[first.interestId].donationId == store.interests[second.interestId].donationId == donationId
  {
    first := store.CreateInterestAsWritten(recipientId, donationId, now);
    second := store.CreateInterestAsWritten(recipientId, donationId, now);
  }

  /** With the interest stored under its checked id, the second attempt is a conflict. */
  method RepeatedInterestRejected(store: InterestStore, recipientId: string, donationId: string, now: int)
    returns (first: InterestResponse, second: InterestResponse)
    requires store.Valid()
    requires donationId in store.donations
    requires InterestKey(donationId, recipientId) !in store.interests
    modifies store
    ensures first == Created(InterestKey(donationId, recipientId))
    ensures second == Conflict("Interest already sent")
  {
    first := store.CreateInterest(recipientId, donationId, now);
    second := store.CreateInterest(recipientId, donationId, now);
  }

  /** Accepting twice yields the same chat and opens only one. */
  method AcceptTwice(store: InterestStore, interestId: DocId, now: int)
    returns (first: InterestResponse, second: InterestResponse)
    requires store.Valid()
    requires interestId in store.interests
    modifies store
    ensures first.ChatIs? && second == first
    ensures |store.chats.Keys| <= |old(store.chats).Keys| + 1
    ensures interestId in store.interests && store.interests[interestId].chatId == Some(first.chatId)
  {
    first := store.AcceptInterest(interestId, now);
    ghost var afterFirst := store.chats;
    assert |afterFirst.Keys| <= |old(store.chats).Keys| + 1 by {
      if old(store.interests)[interestId].chatId.None? {
        assert afterFirst.Keys == old(store.chats).Keys + {first.chatId};
      }
    }
    second := store.AcceptInterest(interestId, now);
  }
}
