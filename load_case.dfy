/**
 * `LOAD_CASE`: one subcase of the punch file with its title, subtitle and
 * label, each stored trimmed of leading and trailing spaces.
 */
module LoadCases {
  import opened Text

  /** The three strings a load case keeps (`pStringData`). */
  datatype Header = Header(title: string, subtitle: string, labelText: string)

  /** The header `checkLoadCase` gives a new subcase: each text trimmed as `addTitle`, `addSubtitle` and `addLabel` do. */
  function Trimmed(title: string, subtitle: string, labelText: string): (h: Header)
    ensures h.title == "" <==> IsBlank(title)
    ensures h.subtitle == "" <==> IsBlank(subtitle)
    ensures h.labelText == "" <==> IsBlank(labelText)
  {
    Header(Trim(title), Trim(subtitle), Trim(labelText))
  }

  /** Trimming a header again changes nothing: a stored header is already in its final form. */
  lemma TrimmedIdempotent(h: Header)
    ensures var t := Trimmed(h.title, h.subtitle, h.labelText);
      Trimmed(t.title, t.subtitle, t.labelText) == t
  {
    TrimIdempotent(h.title);
    TrimIdempotent(h.subtitle);
    TrimIdempotent(h.labelText);
  }

  class LoadCase {
    var subcase: int
    var strings: seq<string>

    ghost predicate Valid()
      reads this
    {
      |strings| == 3
    }

    /** `LOAD_CASE(SubcaseID)`: the strings start empty. */
    constructor (sub: int)
      ensures Valid() && SubcaseID() == sub && Titles() == Header("", "", "")
    {
      subcase := sub;
      strings := ["", "", ""];
    }

    /** `getSubcaseID`. */
    function SubcaseID(): int
      reads this
    {
      subcase
    }

    /** `getTitle`, `getSubtitle` and `getLabel` together. */
    function Titles(): Header
      reads this
      requires Valid()
    {
      Header(strings[0], strings[1], strings[2])
    }

    /** `addSubcaseID`. */
    method AddSubcaseID(sub: int)
      modifies this`subcase
      ensures SubcaseID() == sub
    {
      subcase := sub;
    }

    /** `addTitle`: the title `getTitle` returns is the argument trimmed; nothing else changes. */
    method AddTitle(title: string)
      requires Valid()
      modifies this`strings
      ensures Valid() && Titles() == old(Titles()).(title := Trim(title))
    {
      strings := strings[0 := Trim(title)];
    }

    /** `addSubtitle`. */
    method AddSubtitle(subtitle: string)
      requires Valid()
      modifies this`strings
      ensures Valid() && Titles() == old(Titles()).(subtitle := Trim(subtitle))
    {
      strings := strings[1 := Trim(subtitle)];
    }

    /** `addLabel`. */
    method AddLabel(labelText: string)
      requires Valid()
      modifies this`strings
      ensures Valid() && Titles() == old(Titles()).(labelText := Trim(labelText))
    {
      strings := strings[2 := Trim(labelText)];
    }
  }

  /** The sequence `checkLoadCase` runs on a new subcase: construct, then the three setters. */
  method NewLoadCase(sub: int, title: string, subtitle: string, labelText: string) returns (c: LoadCase)
    ensures fresh(c) && c.Valid()
    ensures c.SubcaseID() == sub && c.Titles() == Trimmed(title, subtitle, labelText)
  {
    c := new LoadCase(sub);
    c.AddTitle(title);
    c.AddSubtitle(subtitle);
    c.AddLabel(labelText);
  }
}
