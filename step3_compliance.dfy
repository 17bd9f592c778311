/** The compliance step (frontend/src/components/TokenWizard/Step3Compliance.tsx):
    the required claim topics and the allowed-country list, edited through
    the store's `updateConfig`, plus the country input field. */
module ComplianceEditor {
  import opened Common
  import opened TokenTypes
  import opened TokenSlice

  /** `config.claimTopics || []`. */
  function TopicsOf(c: TokenConfig): seq<int>
  {
    if c.claimTopics.Some? then c.claimTopics.value else []
  }

  /** `config.allowedCountries || []`. */
  function CountriesOf(c: TokenConfig): seq<string>
  {
    if c.allowedCountries.Some? then c.allowedCountries.value else []
  }

  /** The topic list after `handleClaimTopicChange`: appended when checked,
      every occurrence filtered out when unchecked. */
  function ChangedTopics(topics: seq<int>, topic: int, checked: bool): seq<int>
  {
    if checked then topics + [topic] else RemoveAll(topics, topic)
  }

  /** `handleAddCountry`: the new list, or None when the input is rejected
      (not exactly two characters, or already listed once upper-cased). */
  function AddedCountries(countries: seq<string>, input: string): (r: Option<seq<string>>)
  {
    if input == "" || |input| != 2 then None
    else
      var countryCode := Upper(input);
      if countryCode in countries then None else Some(countries + [countryCode])
  }

  /** The invariant the handlers keep: two-character upper-case codes, none twice. */
  predicate CountriesWellFormed(countries: seq<string>)
  {
    && (forall i :: 0 <= i < |countries| ==> |countries[i]| == 2 && IsUpperCase(countries[i]))
    && NoDuplicates(countries)
  }

  /** The step's component: the store it edits and its country input. */
  class CompliancePanel {
    const store: TokenStore
    var newCountry: string

    constructor (store: TokenStore)
      ensures this.store == store && newCountry == ""
    {
      this.store := store;
      newCountry := "";
    }

    /** The country field's change handler: keeps the typed text upper-cased,
        so the pending code never holds a lower-case letter. */
    method HandleCountryInput(value: string)
      modifies this
      ensures newCountry == Upper(value) && IsUpperCase(newCountry) && |newCountry| == |value|
    {
      newCountry := Upper(value);
      UpperIsUpperCase(value);
    }

    /** `handleClaimTopicChange`. */
    method HandleClaimTopicChange(topic: int, checked: bool)
      modifies store
      ensures store.State() == old(store.State()).(config :=
        Merge(old(store.config), EmptyConfig.(claimTopics := Some(ChangedTopics(TopicsOf(old(store.config)), topic, checked)))))
    {
      var claimTopics := TopicsOf(store.config);
      if checked {
        store.UpdateConfig(EmptyConfig.(claimTopics := Some(claimTopics + [topic])));
      } else {
        store.UpdateConfig(EmptyConfig.(claimTopics := Some(RemoveAll(claimTopics, topic))));
      }
    }

    /** `handleAddCountry`; a rejection only raises an alert. */
    method HandleAddCountry()
      modifies this, store
      ensures var added := AddedCountries(CountriesOf(old(store.config)), old(newCountry));
        && (added.None? ==> store.State() == old(store.State()) && newCountry == old(newCountry))
        && (added.Some? ==>
              && newCountry == ""
              && store.State() == old(store.State()).(config :=
                   Merge(old(store.config), EmptyConfig.(allowedCountries := added))))
    {
      if newCountry == "" || |newCountry| != 2 {
        return;
      }
      var countries := CountriesOf(store.config);
      var countryCode := Upper(newCountry);
      if countryCode in countries {
        return;
      }
      store.UpdateConfig(EmptyConfig.(allowedCountries := Some(countries + [countryCode])));
      newCountry := "";
    }

    /** `handleRemoveCountry`. */
    method HandleRemoveCountry(country: string)
      modifies store
      ensures store.State() == old(store.State()).(config :=
        Merge(old(store.config), EmptyConfig.(allowedCountries := Some(RemoveAll(CountriesOf(old(store.config)), country)))))
    {
      var countries := RemoveAll(CountriesOf(store.config), country);
      store.UpdateConfig(EmptyConfig.(allowedCountries := Some(countries)));
    }
  }

  // ---------------------------------------------------------------------
  // Properties

  /** Checking appends at the end; unchecking drops every occurrence and
      keeps every other topic. */
  lemma TopicChangeEffect(topics: seq<int>, topic: int)
    ensures ChangedTopics(topics, topic, true) == topics + [topic]
    ensures topic !in ChangedTopics(topics, topic, false)
    ensures forall t :: t != topic ==> (t in ChangedTopics(topics, topic, false) <==> t in topics)
  {
    forall t | t != topic && t in topics
      ensures t in RemoveAll(topics, topic)
    {
      var i :| 0 <= i < |topics| && topics[i] == t;
    }
  }

  /** Unchecking keeps the topics on either side of a removed one in their order. */
  lemma UncheckKeepsOrder(before: seq<int>, topic: int, after: seq<int>)
    ensures ChangedTopics(before + [topic] + after, topic, false) == RemoveAll(before, topic) + RemoveAll(after, topic)
  {
    var tail := [topic] + after;
    assert before + [topic] + after == before + tail;
    RemoveAllConcat(before, tail, topic);
    assert tail[0] == topic && tail[1..] == after;
    assert RemoveAll(tail, topic) == RemoveAll(after, topic);
  }

  /** Input that is not exactly two characters is rejected. */
  lemma AddRejectsBadLength(countries: seq<string>, input: string)
    requires |input| != 2
    ensures AddedCountries(countries, input).None?
  {
  }

  /** The duplicate check compares the upper-cased code: a code already listed
      in any letter case is rejected, otherwise the upper-cased code is appended. */
  lemma AddUpperCasesFirst(countries: seq<string>, input: string)
    requires |input| == 2
    ensures Upper(input) in countries ==> AddedCountries(countries, input).None?
    ensures Upper(input) !in countries ==> AddedCountries(countries, input) == Some(countries + [Upper(input)])
    ensures forall other :: |other| == 2 && Upper(other) == Upper(input) && Upper(input) in countries ==>
      AddedCountries(countries, other).None?
  {
  }

  /** Adding keeps the country list well formed. */
  lemma AddKeepsCountriesWellFormed(countries: seq<string>, input: string)
    requires CountriesWellFormed(countries)
    ensures AddedCountries(countries, input).Some? ==> CountriesWellFormed(AddedCountries(countries, input).value)
  {
    var added := AddedCountries(countries, input);
    if added.Some? {
      var code := Upper(input);
      var r := added.value;
      UpperIsUpperCase(input);
      assert r == countries + [code];
      forall i, j | 0 <= i < j < |r|
        ensures r[i] != r[j]
      {
        if j == |countries| {
          assert r[i] == countries[i];
        } else {
          assert r[i] == countries[i] && r[j] == countries[j];
        }
      }
      forall i | 0 <= i < |r|
        ensures |r[i]| == 2 && IsUpperCase(r[i])
      {
        if i < |countries| {
          assert r[i] == countries[i];
        }
      }
    }
  }

  /** Removing deletes every occurrence of that code, keeps every other code,
      and keeps the list well formed. */
  lemma RemoveKeepsCountriesWellFormed(countries: seq<string>, country: string)
    requires CountriesWellFormed(countries)
    ensures var r := RemoveAll(countries, country);
      && country !in r
      && (forall c :: c != country ==> (c in r <==> c in countries))
      && CountriesWellFormed(r)
  {
    var r := RemoveAll(countries, country);
    RemoveAllKeepsDistinct(countries, country);
    forall c | c != country && c in countries
      ensures c in r
    {
      var i :| 0 <= i < |countries| && countries[i] == c;
    }
    forall i | 0 <= i < |r|
      ensures |r[i]| == 2 && IsUpperCase(r[i])
    {
      assert r[i] in countries;
    }
  }

  /** The wizard starts with an empty, well-formed country list. */
  lemma InitialCountriesWellFormed()
    ensures CountriesOf(InitialConfig) == [] && CountriesWellFormed(CountriesOf(InitialConfig))
  {
  }
}
