/**
 * The moderation dashboard (src/app/admin/page.tsx): the loaded message list,
 * its statistics, the search term with the list it filters, and the set of
 * selected ids, updated by the selection checkboxes and the three delete
 * actions. Confirmation dialogs and backend answers are boolean parameters.
 */
module Admin {
  import opened Wrappers
  import opened JsString
  import opened JsArray
  import opened Messages

  /** The four counters shown at the top of the dashboard. */
  datatype Stats = Stats(total: nat, withSpotify: nat, withNames: nat, totalLikes: nat)

  /** `m.spotify_track_id` is truthy. */
  predicate HasSpotify(m: Message) {
    Truthy(m.spotifyTrackId)
  }

  /** `m.from_name` is truthy. */
  predicate HasName(m: Message) {
    Truthy(m.fromName)
  }

  /** `calculateStats`: the list length, the number of messages with a track
      and with a sender name, each at most the length and equal to it exactly
      when every message qualifies, and the total of the likes, zero exactly
      when no message has a like. */
  function CalculateStats(ms: seq<Message>): (s: Stats)
    ensures s.total == |ms| && s.withSpotify <= s.total && s.withNames <= s.total
    ensures s.withSpotify == s.total <==> forall i :: 0 <= i < |ms| ==> HasSpotify(ms[i])
    ensures s.withNames == s.total <==> forall i :: 0 <= i < |ms| ==> HasName(ms[i])
    ensures s.totalLikes == 0 <==> forall i :: 0 <= i < |ms| ==> ms[i].likes == 0
  {
    FilterLengthFull(ms, HasSpotify);
    FilterLengthFull(ms, HasName);
    Stats(|ms|, |Filter(ms, HasSpotify)|, |Filter(ms, HasName)|, SumLikes(ms))
  }

  function AddStats(a: Stats, b: Stats): Stats {
    Stats(a.total + b.total, a.withSpotify + b.withSpotify, a.withNames + b.withNames, a.totalLikes + b.totalLikes)
  }

  /** The statistics of two lists put together are the sums of theirs: each
      counter counts messages one by one. */
  lemma StatsConcat(a: seq<Message>, b: seq<Message>)
    ensures CalculateStats(a + b) == AddStats(CalculateStats(a), CalculateStats(b))
  {
    FilterConcat(a, b, HasSpotify);
    FilterConcat(a, b, HasName);
    SumLikesConcat(a, b);
  }

  /** `field?.toLowerCase().includes(t)`: the field is present and `t`
      occurs in its lower-cased form. */
  predicate FieldMatches(field: Option<string>, t: string): (b: bool)
    ensures b <==> field.Some? && exists i :: OccursAt(ToLower(field.value), t, i)
  {
    field.Some? && (IncludesIff(ToLower(field.value), t); Includes(ToLower(field.value), t))
  }

  /** The search filter's test: the lower-cased term occurs at some index of
      the lower-cased text, of the sender name or of the recipient name; the
      empty term matches every message. */
  predicate MatchesSearch(term: string, m: Message): (b: bool)
    ensures b <==>
      || (exists i :: OccursAt(ToLower(m.text), ToLower(term), i))
      || (m.fromName.Some? && exists i :: OccursAt(ToLower(m.fromName.value), ToLower(term), i))
      || (m.toName.Some? && exists i :: OccursAt(ToLower(m.toName.value), ToLower(term), i))
    ensures term == "" ==> b
  {
    var t := ToLower(term);
    assert term == "" ==> OccursAt(ToLower(m.text), t, 0);
    FieldMatches(Some(m.text), t) || FieldMatches(m.fromName, t) || FieldMatches(m.toName, t)
  }

  /** `filteredMessages`: the messages that match, in their list order; the
      empty term matches every message. */
  function FilterMessages(ms: seq<Message>, term: string): (r: seq<Message>)
    ensures IsSubsequence(r, ms)
    ensures forall i :: 0 <= i < |r| ==> r[i] in ms && MatchesSearch(term, r[i])
    ensures forall i :: 0 <= i < |ms| && MatchesSearch(term, ms[i]) ==> ms[i] in r
    ensures term == "" ==> r == ms
  {
    var matches := (m: Message) => MatchesSearch(term, m);
    FilterIsSubsequence(ms, matches);
    FilterKeepsAll(ms, matches);
    Filter(ms, matches)
  }

  lemma LowerCharIdempotent(c: char)
    ensures LowerChar(LowerChar(c)) == LowerChar(c)
  {
  }

  /** The search ignores the case of the term: a term and its lower-cased form
      select the same messages. */
  lemma SearchIgnoresCase(term: string, m: Message)
    ensures MatchesSearch(term, m) <==> MatchesSearch(ToLower(term), m)
  {
    assert ToLower(ToLower(term)) == ToLower(term) by {
      forall i | 0 <= i < |term|
        ensures ToLower(ToLower(term))[i] == ToLower(term)[i]
      {
        LowerCharIdempotent(term[i]);
      }
    }
  }

  /** The result of `handleSelectAll`: clear the selection when its size equals
      the number of shown messages, else select exactly the shown ids. */
  function SelectAllResult(selected: set<string>, filtered: seq<Message>): (r: set<string>)
    ensures forall id :: id in r ==> id in Ids(filtered)
    ensures |selected| != |filtered| ==> r == Ids(filtered)
    ensures |selected| == |filtered| ==> r == {}
    ensures r != {} <==> |selected| != |filtered| && filtered != []
  {
    if |selected| == |filtered| then {}
    else
      assert filtered != [] ==> filtered[0].id in Ids(filtered);
      Ids(filtered)
  }

  /** The header checkbox: as many selected ids as shown messages, and at
      least one shown; so it is never checked over an empty list or an empty
      selection. */
  predicate HeaderChecked(selected: set<string>, filtered: seq<Message>): (b: bool)
    ensures b ==> filtered != [] && selected != {}
  {
    |selected| == |filtered| && |filtered| > 0
  }

  /** With distinct ids, select-all checks the header checkbox exactly when it
      was not already fully selected and something is shown, and applying it
      twice to a non-empty shown list clears the selection. */
  lemma SelectAllChecksHeader(selected: set<string>, filtered: seq<Message>)
    requires UniqueIds(filtered)
    ensures HeaderChecked(SelectAllResult(selected, filtered), filtered)
        <==> |filtered| > 0 && |selected| != |filtered|
    ensures |filtered| > 0 && |selected| != |filtered| ==>
      SelectAllResult(SelectAllResult(selected, filtered), filtered) == {}
  {
    IdsOfUniqueList(filtered);
  }

  /** The header test and select-all compare sizes, not ids: with "a"
      selected and only "b" shown, the header reads checked although the shown
      message is not selected, and select-all then clears the selection
      instead of selecting "b". */
  lemma SizeOnlyComparison(b: Message)
    requires b.id == "b"
    ensures HeaderChecked({"a"}, [b]) && b.id !in {"a"}
    ensures SelectAllResult({"a"}, [b]) == {}
  {
  }

  class AdminState {
    var messages: seq<Message>
    var stats: Stats
    var searchTerm: string
    var selected: set<string>

    /** The state on first render. */
    constructor ()
      ensures messages == [] && stats == Stats(0, 0, 0, 0) && searchTerm == "" && selected == {}
    {
      messages := [];
      stats := Stats(0, 0, 0, 0);
      searchTerm := "";
      selected := {};
    }

    /** The shown list. */
    function Filtered(): seq<Message>
      reads this
    {
      FilterMessages(messages, searchTerm)
    }

    /** `fetchMessages`: on success the list and the statistics are replaced;
        on a backend error nothing changes. */
    method FetchMessages(fetched: Option<seq<Message>>)
      modifies this`messages, this`stats
      ensures fetched.Some? ==> messages == fetched.value && stats == CalculateStats(fetched.value)
      ensures fetched.None? ==> messages == old(messages) && stats == old(stats)
    {
      if fetched.Some? {
        messages := fetched.value;
        stats := CalculateStats(fetched.value);
      }
    }

    /** The search box. */
    method SetSearchTerm(term: string)
      modifies this`searchTerm
      ensures searchTerm == term
    {
      searchTerm := term;
    }

    /** `handleSelectMessage`: exactly `id` changes membership. */
    method SelectMessage(id: string)
      modifies this`selected
      ensures selected == Toggle(old(selected), id)
    {
      selected := Toggle(selected, id);
    }

    /** `handleSelectAll`. */
    method SelectAll()
      modifies this`selected
      ensures selected == SelectAllResult(old(selected), Filtered())
    {
      selected := SelectAllResult(selected, Filtered());
    }

    /** `handleDeleteMessage`: after confirmation and a successful delete the
        message leaves the list and its id leaves the selection. The counters
        are not recomputed. */
    method DeleteMessage(id: string, confirmed: bool, persisted: bool)
      modifies this`messages, this`selected
      ensures confirmed && persisted ==>
        messages == RemoveIds(old(messages), {id}) && selected == old(selected) - {id}
      ensures !(confirmed && persisted) ==> messages == old(messages) && selected == old(selected)
    {
      if confirmed && persisted {
        messages := RemoveIds(messages, {id});
        selected := selected - {id};
      }
    }

    /** `handleBulkDelete`: nothing for an empty selection; after confirmation
        and a successful delete, only unselected messages remain and the
        selection is empty. */
    method BulkDelete(confirmed: bool, persisted: bool)
      modifies this`messages, this`selected
      ensures old(selected) != {} && confirmed && persisted ==>
        messages == RemoveIds(old(messages), old(selected)) && selected == {}
      ensures !(old(selected) != {} && confirmed && persisted) ==>
        messages == old(messages) && selected == old(selected)
    {
      if |selected| == 0 {
        return;
      }
      if confirmed && persisted {
        messages := RemoveIds(messages, selected);
        selected := {};
      }
    }

    /** `handleDeleteAllMessages`: after confirmation and a successful delete,
        the list and the selection are empty. */
    method DeleteAllMessages(confirmed: bool, persisted: bool)
      modifies this`messages, this`selected
      ensures confirmed && persisted ==> messages == [] && selected == {}
      ensures !(confirmed && persisted) ==> messages == old(messages) && selected == old(selected)
    {
      if confirmed && persisted {
        messages := [];
        selected := {};
      }
    }
  }
}
