/** The order that the pager's maps are kept in.  Maps keyed by it behave like maps keyed by the ids themselves only if
    it is a strict order in which different ids are never equivalent. */
module FileIds {
  import opened PagerModel

  /** `std::string` comparison: byte by byte, a proper prefix first. */
  predicate NameLess(a: seq<Byte>, b: seq<Byte>) {
    b != [] && (a == [] || a[0] < b[0] || (a[0] == b[0] && NameLess(a[1..], b[1..])))
  }

  predicate Less(a: FileId, b: FileId) {
    if a.Swap? && b.Swap? then a.block < b.block
    else if a.File? && b.File? then if a.name != b.name then NameLess(a.name, b.name) else a.block < b.block
    else a.File?
  }

  lemma {:induction false} NamesTotal(a: seq<Byte>, b: seq<Byte>)
    ensures if a == b then !NameLess(a, b) else NameLess(a, b) != NameLess(b, a)
  {
    if a != [] && b != [] {
      NamesTotal(a[1..], b[1..]);
      assert a == [a[0]] + a[1..] && b == [b[0]] + b[1..];
    }
  }

  lemma {:induction false} NamesTransitive(a: seq<Byte>, b: seq<Byte>, c: seq<Byte>)
    requires NameLess(a, b) && NameLess(b, c)
    ensures NameLess(a, c)
  {
    if a != [] && b != [] && c != [] && a[0] == b[0] == c[0] { NamesTransitive(a[1..], b[1..], c[1..]); }
  }

  lemma IdsTotal(a: FileId, b: FileId)
    ensures !Less(a, a)
    ensures (!Less(a, b) && !Less(b, a)) <==> a == b
    ensures !(Less(a, b) && Less(b, a))
  {
    if a.File? { NamesTotal(a.name, a.name); }
    if a.File? && b.File? { NamesTotal(a.name, b.name); }
  }

  lemma IdsTransitive(a: FileId, b: FileId, c: FileId)
    requires Less(a, b) && Less(b, c)
    ensures Less(a, c)
  {
    if a.File? && b.File? && c.File? {
      if a.name != b.name && b.name != c.name { NamesTransitive(a.name, b.name, c.name); }
      NamesTotal(a.name, b.name);
    }
  }
}
