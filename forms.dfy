/** The multipart form bodies the download handler posts to AllDebrid. */
module Forms {

  datatype FormEntry = FormEntry(name: string, value: string)

  /** A `FormData` object: an ordered list of name/value entries that
      `append` grows in place. */
  class FormData {
    var entries: seq<FormEntry>

    constructor ()
      ensures entries == []
    {
      entries := [];
    }

    method Append(name: string, value: string)
      modifies this
      ensures entries == old(entries) + [FormEntry(name, value)]
    {
      entries := entries + [FormEntry(name, value)];
    }
  }

  /** `FormData.getAll(name)`: the values stored under `name`, in order;
      this is how the receiving end reads the form back. */
  function GetAll(entries: seq<FormEntry>, name: string): seq<string> {
    if entries == [] then []
    else (if entries[0].name == name then [entries[0].value] else []) + GetAll(entries[1..], name)
  }

  /** The body of the link-save request: one "links[]" entry per link. */
  function LinksForm(links: seq<string>): seq<FormEntry> {
    if links == [] then [] else [FormEntry("links[]", links[0])] + LinksForm(links[1..])
  }

  /** The save form has one entry per link, named "links[]", in link order. */
  lemma {:induction false} LinksFormShape(links: seq<string>)
    ensures |LinksForm(links)| == |links|
    ensures forall i :: 0 <= i < |links| ==> LinksForm(links)[i] == FormEntry("links[]", links[i])
  {
    if links != [] {
      LinksFormShape(links[1..]);
    }
  }

  /** Reading "links[]" back out of the save form yields exactly the links
      that were put in, in order. */
  lemma {:induction false} LinksFormRoundTrip(links: seq<string>)
    ensures GetAll(LinksForm(links), "links[]") == links
  {
    if links != [] {
      LinksFormRoundTrip(links[1..]);
      assert LinksForm(links)[1..] == LinksForm(links[1..]);
    }
  }

  /** `links.forEach((l) => f.append("links[]", l))` on a fresh `FormData`. */
  method BuildLinksForm(links: seq<string>) returns (entries: seq<FormEntry>)
    ensures entries == LinksForm(links)
  {
    var f := new FormData();
    for i := 0 to |links|
      invariant fresh(f)
      invariant |f.entries| == i
      invariant forall j :: 0 <= j < i ==> f.entries[j] == FormEntry("links[]", links[j])
    {
      f.Append("links[]", links[i]);
    }
    entries := f.entries;
    LinksFormShape(links);
  }
}
