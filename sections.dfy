/** Section resolution: the integer code that tags the type of the entity an
    attachment belongs to (`getSectionHash` and `getSection`). */
module Sections {
  import opened Common
  import opened ConfigTree

  /** `hexdec(hash("crc32", name))`: an unsigned 32-bit checksum. */
  type Checksum = h: int | 0 <= h < 0x1_0000_0000

  /** The owning entity: its class name (`get_class`) and its id (`getId`). */
  datatype Owner = Owner(className: string, id: int)

  /** What `getSection` and `getSectionHash` accept: an entity object or a
      class name. */
  datatype EntityRef = Instance(owner: Owner) | ClassName(name: string)

  function ClassOf(e: EntityRef): string {
    match e
    case Instance(o) => o.className
    case ClassName(n) => n
  }

  const SectionMatrixPath: seq<string> := ["Attach", "sectionMatrix"]

  /** The least q with q * b >= a: PHP's `ceil(a / b)`. */
  function CeilDiv(a: nat, b: nat): (q: nat)
    requires b > 0
    ensures q * b >= a
    ensures (q - 1) * b < a || q == 0
  {
    var q := (a + b - 1) / b;
    var m := (a + b - 1) % b;
    assert a + b - 1 == q * b + m && 0 <= m < b;
    assert (q - 1) * b == q * b - b;
    q
  }

  /** The fallback adjustment of a checksum `h`: codes up to 1000 are moved
      up by 1000, codes above 100000 are divided by 9999 and rounded up, the
      rest pass unchanged. For every 32-bit checksum the code lies in
      [11, 429540]; in particular it is not always above 1000. */
  function SectionHash(h: Checksum): (r: int)
    ensures 11 <= r <= 429540
  {
    if h <= 1000 then h + 1000
    else if h > 100000 then CeilDiv(h, 9999)
    else h
  }

  /** `getSectionHash`: the adjusted checksum of the class name of an
      object or of a class name. */
  function SectionHashOf(crc32: string -> Checksum, e: EntityRef): (r: int)
    ensures 11 <= r <= 429540
  {
    SectionHash(crc32(ClassOf(e)))
  }

  /** The three branches of the adjustment, with the rounding stated as the
      least multiplier of 9999 that reaches h. */
  lemma SectionHashCases(h: Checksum)
    ensures h <= 1000 ==> SectionHash(h) == h + 1000 && 1000 <= SectionHash(h) <= 2000
    ensures 1000 < h <= 100000 ==> SectionHash(h) == h
    ensures h > 100000 ==> SectionHash(h) * 9999 >= h > (SectionHash(h) - 1) * 9999
  {
  }

  /** Both ends of [11, 429540] are reached, and so is 1000. */
  lemma SectionHashExtremes()
    ensures SectionHash(100001) == 11
    ensures SectionHash(0xFFFF_FFFF) == 429540
    ensures SectionHash(0) == 1000
  {
  }

  /** The entry for `className` in the section matrix, when the configured
      matrix is a table (a `Config` object) holding one. */
  function ConfiguredSection(cfg: Config, className: string): Option<Config> {
    match Lookup(cfg, SectionMatrixPath)
    case Some(Table(m)) => if className in m then Some(m[className]) else None
    case _ => None
  }

  /** `getSection`: the configured section, else the checksum fallback. */
  function Section(cfg: Config, crc32: string -> Checksum, e: EntityRef): (r: Config)
    ensures ConfiguredSection(cfg, ClassOf(e)).Some? ==> r == ConfiguredSection(cfg, ClassOf(e)).value
    ensures ConfiguredSection(cfg, ClassOf(e)).None? ==> r.Number? && 11 <= r.number <= 429540
  {
    var name := ClassOf(e);
    match ConfiguredSection(cfg, name)
    case Some(v) => v
    case None => Number(SectionHashOf(crc32, e))
  }

  /** A value configured at Attach.sectionMatrix.<class> is the section. */
  lemma {:induction false} SectionConfiguredWins(cfg: Config, crc32: string -> Checksum, e: EntityRef, v: Config)
    requires Lookup(cfg, SectionMatrixPath + [ClassOf(e)]) == Some(v)
    ensures Section(cfg, crc32, e) == v
  {
    LookupAppend(cfg, SectionMatrixPath, [ClassOf(e)]);
  }

  /** Without a configured entry the section is the adjusted checksum of the
      class name, an integer in [11, 429540]. */
  lemma SectionFallback(cfg: Config, crc32: string -> Checksum, e: EntityRef)
    requires Lookup(cfg, SectionMatrixPath + [ClassOf(e)]).None?
    ensures Section(cfg, crc32, e) == Number(SectionHash(crc32(ClassOf(e))))
    ensures 11 <= Section(cfg, crc32, e).number <= 429540
  {
    LookupAppend(cfg, SectionMatrixPath, [ClassOf(e)]);
  }

  /** An object and its class name have the same section. */
  lemma SectionOfInstance(cfg: Config, crc32: string -> Checksum, o: Owner)
    ensures Section(cfg, crc32, Instance(o)) == Section(cfg, crc32, ClassName(o.className))
  {
  }
}
