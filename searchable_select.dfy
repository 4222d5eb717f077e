/** The searchable single-choice picker: a case-insensitive substring
    filter over its options and a small open / search-term state. Letter
    case is folded for ASCII letters only. */
module Select {
  import opened Types
  import opened Seqs
  import opened Strings

  const DefaultPrompt := "請選擇"

  /** `opt.toLowerCase().includes(searchTerm.toLowerCase())`. */
  predicate Matches(option: string, searchTerm: string)
  {
    Contains(ToLower(option), ToLower(searchTerm))
  }

  /** `filteredOptions`: the options matching the search term, each as
      often as it is given, in the order they were given. */
  function FilteredOptions(options: seq<string>, searchTerm: string): (shown: seq<string>)
    ensures forall o :: o in shown <==> o in options && Matches(o, searchTerm)
    ensures forall o :: multiset(shown)[o] == if Matches(o, searchTerm) then multiset(options)[o] else 0
  {
    var keep := (o: string) => Matches(o, searchTerm);
    FilterCounts(options, keep);
    Filter(options, keep)
  }

  /** The filter keeps options in their given order. */
  lemma FilteredOptionsInOrder(options: seq<string>, searchTerm: string)
    ensures IsSubsequence(FilteredOptions(options, searchTerm), options)
  {
    FilterIsSubsequence(options, o => Matches(o, searchTerm));
  }

  /** An empty search term shows every option. */
  lemma EmptySearchShowsAll(options: seq<string>)
    ensures FilteredOptions(options, "") == options
  {
    forall i | 0 <= i < |options| ensures Matches(options[i], "") {
      ContainsEmpty(ToLower(options[i]));
    }
    FilterKeepsAll(options, o => Matches(o, ""));
  }

  /** The "no match" row appears iff nothing matches. */
  predicate ShowsNoMatch(options: seq<string>, searchTerm: string)
  {
    FilteredOptions(options, searchTerm) == []
  }

  /** "No match" means no option contains the term at any position. */
  lemma NoMatchMeansNoOccurrence(options: seq<string>, searchTerm: string)
    ensures ShowsNoMatch(options, searchTerm) <==>
      forall o :: o in options ==> forall i :: !OccursAt(ToLower(o), ToLower(searchTerm), i)
  {
    var shown := FilteredOptions(options, searchTerm);
    if shown != [] {
      assert shown[0] in shown;
    }
    forall o | o in options ensures Matches(o, searchTerm) <==> exists i :: OccursAt(ToLower(o), ToLower(searchTerm), i) {
      ContainsIffOccurs(ToLower(o), ToLower(searchTerm));
    }
  }

  /** `value || placeholder || '請選擇'`: never empty. */
  function DisplayText(value: string, placeholder: Option<string>): (text: string)
    ensures text != ""
    ensures value != "" ==> text == value
    ensures value == "" && placeholder.Some? && placeholder.value != "" ==> text == placeholder.value
    ensures value == "" && (placeholder.None? || placeholder.value == "") ==> text == DefaultPrompt
  {
    if value != "" then value
    else if placeholder.Some? && placeholder.value != "" then placeholder.value
    else DefaultPrompt
  }

  class SearchableSelect {
    var isOpen: bool
    var searchTerm: string

    constructor ()
      ensures !isOpen && searchTerm == ""
    {
      isOpen := false;
      searchTerm := "";
    }

    /** Clicking the header flips the list open or closed. */
    method ToggleOpen()
      modifies this
      ensures isOpen == !old(isOpen)
      ensures searchTerm == old(searchTerm)
    {
      isOpen := !isOpen;
    }

    /** Typing into the search box. */
    method UpdateSearchTerm(term: string)
      modifies this
      ensures searchTerm == term
      ensures isOpen == old(isOpen)
    {
      searchTerm := term;
    }

    /** Clicking an option: it is reported to the owner, the list closes
        and the search term is cleared. */
    method ChooseOption(option: string) returns (chosen: string)
      modifies this
      ensures chosen == option
      ensures !isOpen && searchTerm == ""
    {
      chosen := option;
      isOpen := false;
      searchTerm := "";
    }

    /** The rows of the open list (none while it is closed). */
    function VisibleOptions(options: seq<string>): (rows: seq<string>)
      reads this
      ensures !isOpen ==> rows == []
      ensures isOpen ==> forall o :: o in rows <==> o in options && Matches(o, searchTerm)
    {
      if isOpen then FilteredOptions(options, searchTerm) else []
    }
  }
}
