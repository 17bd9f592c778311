/** The identity step (frontend/src/components/TokenWizard/Step2Identity.tsx):
    the trusted-issuer list and, at the same positions, each issuer's claim
    topics, edited through the store's `updateConfig`, plus the local input
    and topic selection of the add form. */
module IdentityEditor {
  import opened Common
  import opened TokenTypes
  import opened TokenSlice

  const EnterAddressMessage := "Please enter an issuer address"
  const InvalidAddressMessage := "Invalid Ethereum address format"
  const DuplicateIssuerMessage := "This issuer is already added"
  const NoTopicsMessage := "Please select at least one claim topic"

  /** `config.trustedIssuers || []`. */
  function IssuersOf(c: TokenConfig): seq<Address>
  {
    if c.trustedIssuers.Some? then c.trustedIssuers.value else []
  }

  /** `config.issuerClaimTopics || []`. */
  function TopicListsOf(c: TokenConfig): seq<seq<int>>
  {
    if c.issuerClaimTopics.Some? then c.issuerClaimTopics.value else []
  }

  /** The editor's invariant: one topic list per issuer, no issuer twice,
      and every issuer with at least one topic. */
  predicate IssuersWellFormed(c: TokenConfig)
  {
    && |IssuersOf(c)| == |TopicListsOf(c)|
    && NoDuplicates(IssuersOf(c))
    && forall i :: 0 <= i < |TopicListsOf(c)| ==> TopicListsOf(c)[i] != []
  }

  /** The checks of `handleAddIssuer`, in order: the error it shows, or None
      when the issuer can be added. `validAddress` is what `isAddress` says of the input. */
  function AddIssuerCheck(c: TokenConfig, input: string, selected: seq<int>, validAddress: bool): (error: Option<string>)
  {
    if input == "" then Some(EnterAddressMessage)
    else if !validAddress then Some(InvalidAddressMessage)
    else if input in IssuersOf(c) then Some(DuplicateIssuerMessage)
    else if selected == [] then Some(NoTopicsMessage)
    else None
  }

  /** The payload of a successful add: both lists with the new entry appended. */
  function AddIssuerPatch(c: TokenConfig, input: string, selected: seq<int>): TokenConfig
  {
    EmptyConfig.(trustedIssuers := Some(IssuersOf(c) + [input]),
                 issuerClaimTopics := Some(TopicListsOf(c) + [selected]))
  }

  function Max0(n: int): nat
  {
    if n < 0 then 0 else n
  }

  /** `Array.prototype.splice(index, 1)` on a copy: a negative index counts
      from the end; an index past the end removes nothing. */
  function Spliced<T>(s: seq<T>, index: int): (r: seq<T>)
    ensures 0 <= index < |s| ==> r == s[..index] + s[index + 1..]
    ensures index >= |s| ==> r == s
    ensures index < 0 && s != [] ==> r == s[..Max0(|s| + index)] + s[Max0(|s| + index) + 1..]
    ensures |r| == if index < |s| && s != [] then |s| - 1 else |s|
  {
    var start := if index < 0 then Max0(|s| + index) else (if index < |s| then index else |s|);
    if start < |s| then s[..start] + s[start + 1..] else s
  }

  /** The payload of `handleRemoveIssuer`: each list spliced at the index. */
  function RemoveIssuerPatch(c: TokenConfig, index: int): TokenConfig
  {
    EmptyConfig.(trustedIssuers := Some(Spliced(IssuersOf(c), index)),
                 issuerClaimTopics := Some(Spliced(TopicListsOf(c), index)))
  }

  /** `handleClaimTopicToggle`: a selected topic is dropped, another is appended. */
  function Toggled(selected: seq<int>, topic: int): (r: seq<int>)
  {
    if topic in selected then RemoveAll(selected, topic) else selected + [topic]
  }

  /** The step's component: the store it edits and its own form state. */
  class IdentityPanel {
    const store: TokenStore
    var newIssuer: string
    var selectedClaimTopics: seq<int>
    var error: string

    constructor (store: TokenStore)
      ensures this.store == store && newIssuer == "" && selectedClaimTopics == [] && error == ""
    {
      this.store := store;
      newIssuer, selectedClaimTopics, error := "", [], "";
    }

    /** The issuer field's change handler: takes the typed text and clears the error. */
    method HandleIssuerInput(value: string)
      modifies this
      ensures newIssuer == value && error == "" && selectedClaimTopics == old(selectedClaimTopics)
    {
      newIssuer := value;
      error := "";
    }

    /** `handleAddIssuer`; `validAddress` is `ethers.utils.isAddress(newIssuer)`. */
    method HandleAddIssuer(validAddress: bool)
      modifies this, store
      ensures var check := AddIssuerCheck(old(store.config), old(newIssuer), old(selectedClaimTopics), validAddress);
        && (check.Some? ==> error == check.value && store.State() == old(store.State())
                            && newIssuer == old(newIssuer) && selectedClaimTopics == old(selectedClaimTopics))
        && (check.None? ==> error == "" && newIssuer == "" && selectedClaimTopics == []
                            && store.State() == old(store.State()).(config :=
                                 Merge(old(store.config), AddIssuerPatch(old(store.config), old(newIssuer), old(selectedClaimTopics)))))
    {
      error := "";
      if newIssuer == "" {
        error := EnterAddressMessage;
        return;
      }
      if !validAddress {
        error := InvalidAddressMessage;
        return;
      }
      var trustedIssuers := IssuersOf(store.config);
      if newIssuer in trustedIssuers {
        error := DuplicateIssuerMessage;
        return;
      }
      if |selectedClaimTopics| == 0 {
        error := NoTopicsMessage;
        return;
      }
      var issuerClaimTopics := TopicListsOf(store.config);
      store.UpdateConfig(EmptyConfig.(trustedIssuers := Some(trustedIssuers + [newIssuer]),
                                      issuerClaimTopics := Some(issuerClaimTopics + [selectedClaimTopics])));
      newIssuer := "";
      selectedClaimTopics := [];
    }

    /** `handleRemoveIssuer`. */
    method HandleRemoveIssuer(index: int)
      modifies store
      ensures store.State() == old(store.State()).(config := Merge(old(store.config), RemoveIssuerPatch(old(store.config), index)))
    {
      var trustedIssuers := Spliced(IssuersOf(store.config), index);
      var issuerClaimTopics := Spliced(TopicListsOf(store.config), index);
      store.UpdateConfig(EmptyConfig.(trustedIssuers := Some(trustedIssuers), issuerClaimTopics := Some(issuerClaimTopics)));
    }

    /** `handleClaimTopicToggle`. */
    method HandleClaimTopicToggle(topic: int)
      modifies this
      ensures selectedClaimTopics == Toggled(old(selectedClaimTopics), topic)
      ensures newIssuer == old(newIssuer) && error == old(error)
    {
      if topic in selectedClaimTopics {
        selectedClaimTopics := RemoveAll(selectedClaimTopics, topic);
      } else {
        selectedClaimTopics := selectedClaimTopics + [topic];
      }
    }
  }

  // ---------------------------------------------------------------------
  // Properties

  /** The wizard starts with no issuers, which is well formed. */
  lemma InitialIssuersWellFormed()
    ensures IssuersOf(InitialConfig) == [] && TopicListsOf(InitialConfig) == []
    ensures IssuersWellFormed(InitialConfig)
  {
  }

  /** An accepted add appends the issuer and its topics at the same new last
      position and keeps every earlier entry. */
  lemma AddAppendsAtSameIndex(c: TokenConfig, input: string, selected: seq<int>)
    requires |IssuersOf(c)| == |TopicListsOf(c)|
    ensures var after := Merge(c, AddIssuerPatch(c, input, selected));
      var n := |IssuersOf(c)|;
      && |IssuersOf(after)| == |TopicListsOf(after)| == n + 1
      && IssuersOf(after)[n] == input && TopicListsOf(after)[n] == selected
      && IssuersOf(after)[..n] == IssuersOf(c) && TopicListsOf(after)[..n] == TopicListsOf(c)
      && after == c.(trustedIssuers := Some(IssuersOf(c) + [input]),
                     issuerClaimTopics := Some(TopicListsOf(c) + [selected]))
  {
    var after := Merge(c, AddIssuerPatch(c, input, selected));
    assert IssuersOf(after) == IssuersOf(c) + [input];
    assert TopicListsOf(after) == TopicListsOf(c) + [selected];
  }

  /** An accepted add keeps the lists well formed: no duplicate issuer appears
      and the new issuer has topics. */
  lemma AddKeepsWellFormed(c: TokenConfig, input: string, selected: seq<int>, validAddress: bool)
    requires IssuersWellFormed(c) && AddIssuerCheck(c, input, selected, validAddress).None?
    ensures IssuersWellFormed(Merge(c, AddIssuerPatch(c, input, selected)))
  {
    var after := Merge(c, AddIssuerPatch(c, input, selected));
    var old_issuers, issuers := IssuersOf(c), IssuersOf(after);
    assert issuers == old_issuers + [input];
    assert TopicListsOf(after) == TopicListsOf(c) + [selected];
    forall i, j | 0 <= i < j < |issuers|
      ensures issuers[i] != issuers[j]
    {
      if j == |old_issuers| {
        assert issuers[i] == old_issuers[i];
      } else {
        assert issuers[i] == old_issuers[i] && issuers[j] == old_issuers[j];
      }
    }
  }

  /** Every rejected add states its reason, in the order the checks run. */
  lemma AddRejections(c: TokenConfig, input: string, selected: seq<int>, validAddress: bool)
    ensures AddIssuerCheck(c, input, selected, validAddress).None? <==>
      input != "" && validAddress && input !in IssuersOf(c) && selected != []
    ensures input == "" ==> AddIssuerCheck(c, input, selected, validAddress) == Some(EnterAddressMessage)
    ensures input != "" && !validAddress ==> AddIssuerCheck(c, input, selected, validAddress) == Some(InvalidAddressMessage)
    ensures input != "" && validAddress && input in IssuersOf(c) ==>
      AddIssuerCheck(c, input, selected, validAddress) == Some(DuplicateIssuerMessage)
  {
  }

  /** Removal at a listed position deletes that position from both lists and
      keeps the rest in order, so the lists stay well formed. */
  lemma RemoveDeletesPosition(c: TokenConfig, index: int)
    requires IssuersWellFormed(c) && 0 <= index < |IssuersOf(c)|
    ensures var after := Merge(c, RemoveIssuerPatch(c, index));
      && IssuersOf(after) == IssuersOf(c)[..index] + IssuersOf(c)[index + 1..]
      && TopicListsOf(after) == TopicListsOf(c)[..index] + TopicListsOf(c)[index + 1..]
      && IssuersWellFormed(after)
  {
    var after := Merge(c, RemoveIssuerPatch(c, index));
    var s, t := IssuersOf(c), IssuersOf(after);
    assert t == s[..index] + s[index + 1..];
    assert TopicListsOf(after) == TopicListsOf(c)[..index] + TopicListsOf(c)[index + 1..];
    forall i, j | 0 <= i < j < |t|
      ensures t[i] != t[j]
    {
      var i', j' := if i < index then i else i + 1, if j < index then j else j + 1;
      assert t[i] == s[i'] && t[j] == s[j'];
    }
    forall i | 0 <= i < |TopicListsOf(after)|
      ensures TopicListsOf(after)[i] != []
    {
      assert TopicListsOf(after)[i] == TopicListsOf(c)[if i < index then i else i + 1];
    }
  }

  /** Removal at any index, even one outside the lists, keeps them parallel. */
  lemma RemoveKeepsParallel(c: TokenConfig, index: int)
    requires |IssuersOf(c)| == |TopicListsOf(c)|
    ensures var after := Merge(c, RemoveIssuerPatch(c, index));
      |IssuersOf(after)| == |TopicListsOf(after)|
  {
  }

  /** Toggling drops a selected topic and appends an unselected one; no other
      topic changes and no topic appears twice. */
  lemma ToggleEffect(selected: seq<int>, topic: int)
    requires NoDuplicates(selected)
    ensures var r := Toggled(selected, topic);
      && (topic in selected <==> topic !in r)
      && (topic !in selected ==> r == selected + [topic])
      && (forall t :: t != topic ==> (t in r <==> t in selected))
      && NoDuplicates(r)
  {
    var r := Toggled(selected, topic);
    if topic in selected {
      RemoveAllKeepsDistinct(selected, topic);
    } else {
      forall i, j | 0 <= i < j < |r|
        ensures r[i] != r[j]
      {
        if j == |selected| {
          assert r[i] == selected[i];
        } else {
          assert r[i] == selected[i] && r[j] == selected[j];
        }
      }
    }
    forall t | t != topic
      ensures t in r <==> t in selected
    {
      if t in selected {
        var i :| 0 <= i < |selected| && selected[i] == t;
      }
    }
  }
}
