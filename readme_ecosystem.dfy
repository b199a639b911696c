/** scripts/generate-readme-ecosystem.js: every project of the Devfolio list
    is bucketed into one of nine README sections by its category, each
    section is sorted by name and written as a Markdown list, and the
    README is the fixed header, the sections and the fixed footer.
    A project field is an Option<Json>: None is `undefined`, printed as
    "undefined" by a template literal. String.prototype.localeCompare is a
    caller-supplied name order. */
module ReadmeEcosystem {
  import opened Strings
  import opened JsonValue
  import opened Lists
  import opened Sorting
  import MdxFromJson

  datatype Section = Bridges | DAOs | DeFi | Gaming | Infrastructure | NFTs | Onramps | Social | Wallets

  /** The fixed order of the output. */
  const Order: seq<Section> := [Bridges, DAOs, DeFi, Gaming, Infrastructure, NFTs, Onramps, Social, Wallets]

  lemma OrderFacts()
    ensures Distinct(Order)
    ensures forall s: Section :: s in Order
  {
    forall s: Section ensures s in Order {
      var k := match s
        case Bridges => 0 case DAOs => 1 case DeFi => 2 case Gaming => 3 case Infrastructure => 4
        case NFTs => 5 case Onramps => 6 case Social => 7 case Wallets => 8;
      assert Order[k] == s;
    }
  }

  function SectionName(s: Section): string {
    match s
    case Bridges => "Bridges"
    case DAOs => "DAOs"
    case DeFi => "DeFi"
    case Gaming => "Gaming"
    case Infrastructure => "Infrastructure"
    case NFTs => "NFTs"
    case Onramps => "Onramps"
    case Social => "Social"
    case Wallets => "Wallets"
  }

  function Subtitle(s: Section): string {
    match s
    case Bridges => "Indian projects building cross-chain bridge solutions on Base"
    case DAOs => "Indian DAOs and decentralized governance projects on Base"
    case DeFi => "Indian DeFi protocols, DEXs, and financial applications on Base"
    case Gaming => "Indian gaming projects and blockchain games on Base"
    case Infrastructure => "Indian infrastructure providers, developer tools, and platforms on Base"
    case NFTs => "Indian NFT marketplaces, creators, and platforms on Base"
    case Onramps => "Indian fiat-to-crypto onramps and payment solutions for Base"
    case Social => "Indian social platforms and community projects on Base"
    case Wallets => "Indian wallet providers supporting Base"
  }

  /** categoryToSection: the eleven categories with a section. */
  function CategorySection(key: string): (r: Option<Section>)
    ensures r != Some(Bridges)
  {
    if key == "DAO" then Some(DAOs)
    else if key == "DeFi" then Some(DeFi)
    else if key == "Gaming" then Some(Gaming)
    else if key == "Infra" || key == "AI" then Some(Infrastructure)
    else if key == "Consumer" || key == "Mini-apps" || key == "Social" then Some(Social)
    else if key == "NFT" then Some(NFTs)
    else if key == "Payments" then Some(Onramps)
    else if key == "Identity" then Some(Wallets)
    else None
  }

  /** A template literal or a property key: String(v). */
  function Text(v: Option<Json>): string {
    MdxFromJson.Text(v)
  }

  function Field(p: Json, key: string): Option<Json> {
    MdxFromJson.Lookup1(p, key)
  }

  /** `categoryToSection[p.category] || "Infrastructure"`. */
  function SectionOf(p: Json): (s: Section)
    ensures s != Bridges
    ensures CategorySection(Text(Field(p, "category"))).None? ==> s == Infrastructure
  {
    CategorySection(Text(Field(p, "category"))).GetOr(Infrastructure)
  }

  /** `p.links && p.links[0]`, when it leads anywhere: the first element. */
  function FirstLink(p: Json): Option<Json> {
    var links := Field(p, "links");
    if links.None? then None
    else match links.value
      case JArr(items) => if items == [] then None else Some(items[0])
      case JObj(fields) => Lookup(fields, "0")
      case JStr(s) => if s == "" then None else Some(JStr([s[0]]))
      case _ => None
  }

  /** `p.farcaster || (p.links && p.links[0]) || p.github || p.url`. */
  function Link(p: Json): (r: Option<Json>)
    ensures JsTruthy(Field(p, "farcaster")) ==> r == Field(p, "farcaster")
    ensures !JsTruthy(Field(p, "farcaster")) && JsTruthy(FirstLink(p)) ==> r == FirstLink(p)
    ensures !JsTruthy(Field(p, "farcaster")) && !JsTruthy(FirstLink(p)) && JsTruthy(Field(p, "github")) ==> r == Field(p, "github")
    ensures !JsTruthy(Field(p, "farcaster")) && !JsTruthy(FirstLink(p)) && !JsTruthy(Field(p, "github")) ==> r == Field(p, "url")
  {
    JsOr(JsOr(JsOr(Field(p, "farcaster"), FirstLink(p)), Field(p, "github")), Field(p, "url"))
  }

  datatype Entry = Entry(name: Option<Json>, description: Json, link: Option<Json>)

  function EntryOf(p: Json): Entry {
    var d := Field(p, "description");
    Entry(Field(p, "name"), if JsTruthy(d) then d.value else JStr(""), Link(p))
  }

  function InSection(s: Section): Json -> Option<Entry> {
    Keyed(SectionOf, EntryOf, s)
  }

  /** bySection[s] after the loop over the data. */
  function Bucket(data: seq<Json>, s: Section): seq<Entry> {
    FilterMap(data, InSection(s))
  }

  /** Each project's entry is in its own section's bucket, and a bucket
      holds only entries of projects in that section. */
  lemma BucketFacts(data: seq<Json>, s: Section)
    ensures forall k | 0 <= k < |data| && SectionOf(data[k]) == s :: EntryOf(data[k]) in Bucket(data, s)
    ensures forall e | e in Bucket(data, s) :: exists k | 0 <= k < |data| :: SectionOf(data[k]) == s && e == EntryOf(data[k])
  {
    FilterMapSource(data, InSection(s));
    forall k | 0 <= k < |data| && SectionOf(data[k]) == s ensures EntryOf(data[k]) in Bucket(data, s) {
      FilterMapKeeps(data, InSection(s), k);
    }
  }

  /** No category maps to Bridges. */
  lemma BridgesEmpty(data: seq<Json>)
    ensures Bucket(data, Bridges) == []
  {
    assert forall k | 0 <= k < |data| :: SectionOf(data[k]) != Bridges;
    FilterMapEmpty(data, InSection(Bridges));
  }

  /** One more project adds its entry to its own bucket only. */
  lemma BucketStep(data: seq<Json>, i: nat, s: Section)
    requires i < |data|
    ensures Bucket(data[..i + 1], s) == Bucket(data[..i], s) + (if s == SectionOf(data[i]) then [EntryOf(data[i])] else [])
  {
    FilterMapStep(data, InSection(s), i);
  }

  /** The buckets together hold exactly one entry per project. */
  lemma BucketsPartition(data: seq<Json>)
    ensures SumOver(Order, KeyedSize(data, SectionOf, EntryOf)) == |data|
  {
    OrderFacts();
    KeyedPartition(data, Order, SectionOf, EntryOf);
  }

  /** `a.name.localeCompare(b.name, ...) <= 0` on entries. */
  function ByName(nameLe: (Option<Json>, Option<Json>) -> bool): (Entry, Entry) -> bool {
    (a: Entry, b: Entry) => nameLe(a.name, b.name)
  }

  lemma ByNameOrder(nameLe: (Option<Json>, Option<Json>) -> bool)
    requires TotalPreorder(nameLe)
    ensures TotalPreorder(ByName(nameLe))
  {
    var le := ByName(nameLe);
    forall a: Entry, b: Entry ensures le(a, b) || le(b, a) {
      assert nameLe(a.name, b.name) || nameLe(b.name, a.name);
    }
    forall a: Entry, b: Entry, c: Entry | le(a, b) && le(b, c) ensures le(a, c) {
      assert nameLe(a.name, b.name) && nameLe(b.name, c.name);
    }
  }

  /** `s.replace(/\[/g, "\\[")`. */
  function EscapeBrackets(s: string): (r: string)
    ensures forall i | 0 <= i < |r| && r[i] == '[' :: i > 0 && r[i - 1] == '\\'
    ensures r != [] ==> r[0] != '['
  {
    if s == [] then []
    else (if s[0] == '[' then "\\[" else [s[0]]) + EscapeBrackets(s[1..])
  }

  /** Reading the escaped text back: a backslash before '[' is dropped. */
  function UnescapeBrackets(s: string): string {
    if s == [] then []
    else if |s| >= 2 && s[0] == '\\' && s[1] == '[' then "[" + UnescapeBrackets(s[2..])
    else [s[0]] + UnescapeBrackets(s[1..])
  }

  lemma {:induction false} EscapeBracketsRoundTrip(s: string)
    ensures UnescapeBrackets(EscapeBrackets(s)) == s
  {
    if s != [] {
      EscapeBracketsRoundTrip(s[1..]);
      var rest := EscapeBrackets(s[1..]);
      if s[0] == '[' {
        assert EscapeBrackets(s) == "\\[" + rest;
        assert ("\\[" + rest)[2..] == rest;
      } else {
        assert EscapeBrackets(s) == [s[0]] + rest;
        assert ([s[0]] + rest)[1..] == rest;
      }
      assert s == [s[0]] + s[1..];
    }
  }

  /** The description as printed: brackets escaped, then trimmed. */
  function DescText(e: Entry): string {
    Trim(EscapeBrackets(Str(e.description)))
  }

  function EntryLine(e: Entry): string {
    "- [" + Text(e.name) + "](" + Text(e.link) + ") — " + DescText(e) + "\n\n"
  }

  const Placeholder := "<!-- Add Indian projects here -->\n\n"

  /** A section's heading and subtitle. */
  function SectionHead(s: Section): string {
    "### " + SectionName(s) + "\n\n" + "*" + Subtitle(s) + "*\n\n"
  }

  /** One section's block of the output: the heading, then the placeholder
      for an empty section, or else the entry lines in list order. */
  function SectionText(s: Section, list: seq<Entry>): (r: string)
    ensures |r| >= 4 + |SectionName(s)| && r[..4 + |SectionName(s)|] == "### " + SectionName(s)
    ensures |r| >= |SectionHead(s)| && r[..|SectionHead(s)|] == SectionHead(s)
    ensures list == [] ==> r[|SectionHead(s)|..] == Placeholder
    ensures list != [] ==> r[|SectionHead(s)|..] == FlatMap(list, EntryLine)
  {
    var head := SectionHead(s);
    var r := head + (if list == [] then Placeholder else FlatMap(list, EntryLine));
    assert r[..4 + |SectionName(s)|] == head[..4 + |SectionName(s)|];
    assert r[..|head|] == head;
    r
  }

  function SectionBlock(data: seq<Json>, nameLe: (Option<Json>, Option<Json>) -> bool): Section -> string {
    (s: Section) => SectionText(s, SortBy(Bucket(data, s), ByName(nameLe)))
  }

  /** The generated section text, out. */
  function Out(data: seq<Json>, nameLe: (Option<Json>, Option<Json>) -> bool): string {
    FlatMap(Order, SectionBlock(data, nameLe))
  }

  /** The fixed text before the sections, line by line. */
  const HeaderLines: seq<string> := [
    "# Awesome Base India [![Awesome](https://awesome.re/badge.svg)](https://awesome.re)",
    "",
    "**Awesome Base India** is a curated list of Indian projects, dApps, and initiatives building on Base — an Ethereum L2 incubated by Coinbase.",
    "",
    "## Base Official Links",
    "",
    "+ [Base.org](https://base.org/)",
    "+ [Base Blog](https://base.mirror.xyz/)",
    "+ [Base Bridge](https://bridge.base.org/)",
    "+ [Base Discord](https://base.org/discord)",
    "+ [Base Farcaster](https://warpcast.com/base)",
    "+ [Base GitHub](https://github.com/base-org)",
    "+ [Base Guild](https://guild.xyz/buildonbase)",
    "+ [Base Quests](https://quests.base.org/)",
    "+ [Base Status](https://status.base.org/)",
    "+ [Base X](https://x.com/buildonbase)",
    "",
    "## Base India Community",
    "",
    "+ [Inner Circle X](https://x.com/innercircle_so)",
    "+ [Community Link](https://t.co/BC2WASe4OD)",
    "",
    "## Indian Base Ecosystem",
    "",
    ""]
  const Header := Join(HeaderLines, "\n")
  /** The fixed text after the sections, line by line. */
  const FooterLines: seq<string> := [
    "",
    "## Contributions",
    "",
    "If you have something you'd like to add, please open a pull request and ensure it matches the format + ordering (alphanumerical) of the existing entries. Links that are inactive, outdated, or no longer relevant may be removed at any time.",
    "",
    "## License",
    "",
    "[MIT License](LICENSE)",
    ""]
  const Footer := Join(FooterLines, "\n")

  /** The README: the fixed header, the sections, the fixed footer. */
  function Readme(section: string): string {
    Header + section + Footer
  }

  datatype Written = Written(section: string, readme: string)

  /** The loop that fills bySection. */
  method GroupBySection(data: seq<Json>) returns (bySection: map<Section, seq<Entry>>)
    ensures forall s: Section :: s in bySection && bySection[s] == Bucket(data, s)
  {
    bySection := map s | s in Order :: [];
    OrderFacts();
    for i := 0 to |data|
      invariant forall s: Section :: s in bySection && bySection[s] == Bucket(data[..i], s)
    {
      var p := data[i];
      var section := SectionOf(p);
      forall s: Section ensures Bucket(data[..i + 1], s) == Bucket(data[..i], s) + (if s == section then [EntryOf(p)] else []) {
        BucketStep(data, i, s);
      }
      bySection := bySection[section := bySection[section] + [EntryOf(p)]];
    }
    assert data[..|data|] == data;
  }

  /** The loop over the sections in their fixed order. */
  method WriteSections(data: seq<Json>, bySection: map<Section, seq<Entry>>, nameLe: (Option<Json>, Option<Json>) -> bool)
    returns (out: string)
    requires forall s: Section :: s in bySection && bySection[s] == Bucket(data, s)
    ensures out == Out(data, nameLe)
  {
    out := "";
    for k := 0 to |Order|
      invariant out == FlatMap(Order[..k], SectionBlock(data, nameLe))
    {
      FlatMapStep(Order, SectionBlock(data, nameLe), k);
      var list := SortBy(bySection[Order[k]], ByName(nameLe));
      out := out + SectionText(Order[k], list);
    }
    assert Order[..|Order|] == Order;
  }

  /** The script: the section text, and the README around it. */
  method GenerateReadme(data: seq<Json>, nameLe: (Option<Json>, Option<Json>) -> bool) returns (w: Written)
    ensures w.section == Out(data, nameLe)
    ensures w.readme == Readme(w.section)
  {
    var bySection := GroupBySection(data);
    var out := WriteSections(data, bySection, nameLe);
    w := Written(out, Readme(out));
  }

  /** Every section block lists its bucket sorted by name: the same entries,
      as many times each, in name order. */
  lemma SectionSorted(data: seq<Json>, nameLe: (Option<Json>, Option<Json>) -> bool, s: Section)
    requires TotalPreorder(nameLe)
    ensures var list := SortBy(Bucket(data, s), ByName(nameLe));
      multiset(list) == multiset(Bucket(data, s)) && SortedBy(list, ByName(nameLe))
  {
    ByNameOrder(nameLe);
    SortBySorted(Bucket(data, s), ByName(nameLe));
  }

  /** The output starts with the Bridges heading and the Bridges block is
      always the placeholder. */
  lemma OutStartsWithBridges(data: seq<Json>, nameLe: (Option<Json>, Option<Json>) -> bool)
    ensures var b := SectionText(Bridges, []);
      |Out(data, nameLe)| >= |b| && Out(data, nameLe)[..|b|] == b
  {
    BridgesEmpty(data);
    assert SortBy<Entry>([], ByName(nameLe)) == [];
    FlatMapFirst(Order, SectionBlock(data, nameLe));
  }
}
