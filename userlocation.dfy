/**
 * The location box with suggestions from a fixed table of Malawian cities and
 * districts: typing filters the table, clicking a suggestion fills the box.
 */
module UserLocation {
  import opened Optional
  import Strings
  import Seqs

  datatype Kind = City | District

  /** An entry of the suggestion table. */
  datatype Place = Place(kind: Kind, name: string, district: string)

  /** The table the suggestions come from, in the order they are listed. */
  const Table: seq<Place> := [
    Place(City, "Lilongwe", "Lilongwe"),
    Place(City, "Blantyre", "Blantyre"),
    Place(City, "Mzuzu", "Mzimba"),
    Place(City, "Zomba", "Zomba"),
    Place(District, "Balaka", "Balaka"),
    Place(District, "Chikwawa", "Chikwawa"),
    Place(District, "Chiradzulu", "Chiradzulu"),
    Place(District, "Dedza", "Dedza"),
    Place(District, "Karonga", "Karonga"),
    Place(District, "Mangochi", "Mangochi"),
    Place(District, "Mulanje", "Mulanje"),
    Place(District, "Nkhata Bay", "Nkhata Bay"),
    Place(District, "Nkhotakota", "Nkhotakota"),
    Place(District, "Nsanje", "Nsanje"),
    Place(District, "Rumphi", "Rumphi"),
    Place(District, "Thyolo", "Thyolo")
  ]

  /** The filter's test: the name or the district contains the input, ignoring case. */
  predicate Matches(p: Place, input: string) {
    || Strings.Contains(Strings.ToLower(p.name), Strings.ToLower(input))
    || Strings.Contains(Strings.ToLower(p.district), Strings.ToLower(input))
  }

  /** The suggestions for an input: none below two characters, otherwise the matching entries in table order. */
  function Suggestions(input: string): (r: seq<Place>)
    ensures |input| <= 1 ==> r == []
    ensures |input| > 1 ==> Seqs.IsSubseq(r, Table)
    ensures |input| > 1 ==> forall p :: p in r <==> p in Table && Matches(p, input)
  {
    if |input| > 1 then
      Seqs.FilterIsSubseq(Table, p => Matches(p, input));
      Seqs.Filter(Table, p => Matches(p, input))
    else []
  }

  /** Typing an entry's whole name (in any case) offers that entry. */
  lemma OwnNameSuggested(p: Place, typed: string)
    requires p in Table && |typed| > 1 && Strings.ToLower(typed) == Strings.ToLower(p.name)
    ensures p in Suggestions(typed)
  {
    Strings.ContainsSelf(Strings.ToLower(typed));
    assert Matches(p, typed);
  }

  /** What a click writes into the box: `"<name>, <district>"`. */
  function ClickText(p: Place): (s: string)
    ensures ',' in s
  {
    assert (p.name + ", " + p.district)[|p.name|] == ',';
    p.name + ", " + p.district
  }

  /** No table entry has a comma in its name or district. */
  lemma TableHasNoCommas(i: int)
    requires 0 <= i < |Table|
    ensures ',' !in Table[i].name && ',' !in Table[i].district
  {
  }

  /**
   * Once a suggestion is clicked, the filter finds nothing for the text it
   * wrote: that text holds a comma and no table entry does.
   */
  lemma NothingMatchesClickText(p: Place)
    ensures Suggestions(ClickText(p)) == []
  {
    var input := ClickText(p);
    Strings.ToLowerKeepsComma(input);
    forall q | q in Table ensures !Matches(q, input) {
      var i :| 0 <= i < |Table| && Table[i] == q;
      TableHasNoCommas(i);
      Strings.ToLowerKeepsComma(q.name);
      Strings.ToLowerKeepsComma(q.district);
      if Strings.Contains(Strings.ToLower(q.name), Strings.ToLower(input)) {
        Strings.ContainsChars(Strings.ToLower(q.name), Strings.ToLower(input), ',');
      }
      if Strings.Contains(Strings.ToLower(q.district), Strings.ToLower(input)) {
        Strings.ContainsChars(Strings.ToLower(q.district), Strings.ToLower(input), ',');
      }
    }
    Seqs.FilterNone(Table, q => Matches(q, input));
  }

  class LocationInput {
    var inputValue: string
    var suggestions: seq<Place>
    var showSuggestions: bool
    var selected: Option<Place>

    constructor ()
      ensures inputValue == "" && suggestions == [] && !showSuggestions && selected == None
    {
      inputValue, suggestions, showSuggestions, selected := "", [], false, None;
    }

    /** The filter effect, run whenever the input changes. */
    method Effect()
      modifies this`suggestions, this`showSuggestions
      ensures suggestions == Suggestions(inputValue)
      ensures showSuggestions <==> |inputValue| > 1
    {
      if |inputValue| > 1 {
        suggestions := Suggestions(inputValue);
        showSuggestions := true;
      } else {
        suggestions := [];
        showSuggestions := false;
      }
    }

    /** `handleInputChange`: the typed text, and no location selected any more. */
    method InputChange(value: string)
      modifies this`inputValue, this`selected
      ensures inputValue == value && selected == None
    {
      inputValue := value;
      selected := None;
    }

    /** `handleSuggestionClick`: the box shows the place, it is selected, the list closes; the place is what `onLocationSelect` receives. */
    method SuggestionClick(p: Place) returns (reported: Place)
      modifies this`inputValue, this`selected, this`showSuggestions
      ensures inputValue == ClickText(p) && selected == Some(p) && !showSuggestions
      ensures reported == p
    {
      inputValue := ClickText(p);
      selected := Some(p);
      showSuggestions := false;
      reported := p;
    }

    /** Focusing the box reopens the list when the input has two characters or more. */
    method Focus()
      modifies this`showSuggestions
      ensures showSuggestions == (old(showSuggestions) || |inputValue| > 1)
    {
      if |inputValue| > 1 {
        showSuggestions := true;
      }
    }

    /** Leaving the box closes the list (after a 200 ms timer in the page). */
    method Blur()
      modifies this`showSuggestions
      ensures !showSuggestions
    {
      showSuggestions := false;
    }

    /** The entries actually drawn: the list only when it is open and not empty. */
    function Visible(): (r: seq<Place>)
      reads this
      ensures r == [] || (showSuggestions && r == suggestions)
      ensures showSuggestions && |suggestions| > 0 ==> r == suggestions
    {
      if showSuggestions && |suggestions| > 0 then suggestions else []
    }
  }

  /** A click followed by the effect it triggers leaves the list open but empty, so nothing is drawn. */
  method ClickThenEffect(box: LocationInput, p: Place)
    modifies box
    ensures box.selected == Some(p) && box.inputValue == ClickText(p)
    ensures box.showSuggestions && box.Visible() == []
  {
    var _ := box.SuggestionClick(p);
    box.Effect();
    NothingMatchesClickText(p);
    assert |box.inputValue| > 1 by {
      assert |ClickText(p)| >= 2;
    }
  }
}
