/** The immutable `Flavor` record, the provider record it is built from, and
    the sort key `(column, name)`. */
module FlavorRecord {
  import opened Wrappers
  import opened Strings

  /** One flavor. Equality is on every field (the record is a frozen
      dataclass with generated `__eq__`); only its hash is narrowed to
      `(name, flavor_id)`, which never changes which records are equal. */
  datatype Flavor = Flavor(
    flavorId: string,
    name: string,
    vcpus: int,
    memory: real,          // GiB
    disk: int,
    swap: int,
    ephemeral: int,
    description: string,
    isPublic: bool,
    rxtxFactor: real,
    extraSpecs: map<string, string>)

  /** The record the compute provider hands back; `ram` is in MiB. */
  datatype RawFlavor = RawFlavor(
    id: string,
    name: string,
    vcpus: int,
    ram: int,
    disk: int,
    swap: int,
    ephemeral: int,
    description: string,
    isPublic: bool,
    rxtxFactor: real,
    extraSpecs: map<string, string>)

  /** The `(name, flavor_id)` pair that the record's hash is computed from. */
  function HashKey(f: Flavor): (string, string)
  {
    (f.name, f.flavorId)
  }

  /** The record built for one provider record: every field copied, RAM
      converted from MiB to GiB. */
  function ToFlavor(raw: RawFlavor): (f: Flavor)
    ensures f.flavorId == raw.id && f.name == raw.name && f.vcpus == raw.vcpus
    ensures f.disk == raw.disk && f.swap == raw.swap && f.ephemeral == raw.ephemeral
    ensures f.description == raw.description && f.isPublic == raw.isPublic
    ensures f.rxtxFactor == raw.rxtxFactor && f.extraSpecs == raw.extraSpecs
    ensures f.memory * 1024.0 == raw.ram as real
    ensures forall b: int :: f.memory >= b as real <==> raw.ram >= b * 1024
    ensures forall b: int :: f.memory <= b as real <==> raw.ram <= b * 1024
  {
    Flavor(raw.id, raw.name, raw.vcpus, raw.ram as real / 1024.0, raw.disk,
           raw.swap, raw.ephemeral, raw.description, raw.isPublic,
           raw.rxtxFactor, raw.extraSpecs)
  }

  /** The attributes of a `Flavor` that a sort may name. */
  datatype Column =
    | FlavorId | Name | Vcpus | Memory | Disk | Swap | Ephemeral
    | Description | IsPublic | RxtxFactor | ExtraSpecs

  /** `getattr` on a field name: `None` for anything that is not a field. */
  function ColumnOf(attribute: string): (c: Option<Column>)
    ensures c == Some(Name) <==> attribute == "name"
    ensures c == Some(Vcpus) <==> attribute == "vcpus"
    ensures c == Some(Memory) <==> attribute == "memory"
  {
    match attribute
    case "flavor_id" => Some(FlavorId)
    case "name" => Some(Name)
    case "vcpus" => Some(Vcpus)
    case "memory" => Some(Memory)
    case "disk" => Some(Disk)
    case "swap" => Some(Swap)
    case "ephemeral" => Some(Ephemeral)
    case "description" => Some(Description)
    case "is_public" => Some(IsPublic)
    case "rxtx_factor" => Some(RxtxFactor)
    case "extra_specs" => Some(ExtraSpecs)
    case _ => None
  }

  /** Python's `==` on the two records' values of column `c`. */
  predicate ColumnEq(c: Column, a: Flavor, b: Flavor)
  {
    match c
    case FlavorId => a.flavorId == b.flavorId
    case Name => a.name == b.name
    case Vcpus => a.vcpus == b.vcpus
    case Memory => a.memory == b.memory
    case Disk => a.disk == b.disk
    case Swap => a.swap == b.swap
    case Ephemeral => a.ephemeral == b.ephemeral
    case Description => a.description == b.description
    case IsPublic => a.isPublic == b.isPublic
    case RxtxFactor => a.rxtxFactor == b.rxtxFactor
    case ExtraSpecs => a.extraSpecs == b.extraSpecs
  }

  /** Python's `<` on the two records' values of column `c` (`False < True`;
      two dicts are never ordered). */
  predicate ColumnLt(c: Column, a: Flavor, b: Flavor): (r: bool)
    ensures r ==> !ColumnEq(c, a, b)
  {
    match c
    case FlavorId => StrLtIrreflexive(a.flavorId); StrLt(a.flavorId, b.flavorId)
    case Name => StrLtIrreflexive(a.name); StrLt(a.name, b.name)
    case Vcpus => a.vcpus < b.vcpus
    case Memory => a.memory < b.memory
    case Disk => a.disk < b.disk
    case Swap => a.swap < b.swap
    case Ephemeral => a.ephemeral < b.ephemeral
    case Description => StrLtIrreflexive(a.description); StrLt(a.description, b.description)
    case IsPublic => !a.isPublic && b.isPublic
    case RxtxFactor => a.rxtxFactor < b.rxtxFactor
    case ExtraSpecs => false
  }

  /** Two records can be compared on column `c` without a `TypeError`: only
      two different `extra_specs` dicts cannot. */
  predicate Comparable(c: Column, a: Flavor, b: Flavor): (r: bool)
    ensures !r ==> c == ExtraSpecs && a != b
  {
    c != ExtraSpecs || a.extraSpecs == b.extraSpecs
  }

  /** `(getattr(a, c), a.name) <= (getattr(b, c), b.name)` as Python compares
      tuples: the column first, the name only when the columns are equal.
      Every record is ordered with itself. */
  predicate KeyLe(c: Column, a: Flavor, b: Flavor): (r: bool)
    ensures a == b ==> r
    ensures ColumnLt(c, a, b) ==> r
  {
    StrLtIrreflexive(a.name);
    ColumnLt(c, a, b) || (ColumnEq(c, a, b) && !StrLt(b.name, a.name))
  }

  /** The column order is a strict order whose incomparable pairs are the
      equal ones. */
  lemma ColumnTrichotomy(c: Column, a: Flavor, b: Flavor)
    requires Comparable(c, a, b)
    ensures ColumnLt(c, a, b) || ColumnEq(c, a, b) || ColumnLt(c, b, a)
    ensures !(ColumnLt(c, a, b) && ColumnLt(c, b, a))
    ensures ColumnEq(c, a, b) ==> !ColumnLt(c, a, b)
  {
    match c
    case FlavorId =>
      StrLtTrichotomy(a.flavorId, b.flavorId);
      StrLtIrreflexive(a.flavorId);
    case Name =>
      StrLtTrichotomy(a.name, b.name);
      StrLtIrreflexive(a.name);
    case Description =>
      StrLtTrichotomy(a.description, b.description);
      StrLtIrreflexive(a.description);
    case _ =>
  }

  lemma ColumnLtTransitive(c: Column, a: Flavor, b: Flavor, d: Flavor)
    requires ColumnLt(c, a, b) && ColumnLt(c, b, d)
    ensures ColumnLt(c, a, d)
  {
    match c
    case FlavorId => StrLtTransitive(a.flavorId, b.flavorId, d.flavorId);
    case Name => StrLtTransitive(a.name, b.name, d.name);
    case Description => StrLtTransitive(a.description, b.description, d.description);
    case _ =>
  }

  /** Any two comparable records are ordered one way or the other. */
  lemma KeyLeTotal(c: Column, a: Flavor, b: Flavor)
    requires Comparable(c, a, b)
    ensures KeyLe(c, a, b) || KeyLe(c, b, a)
  {
    ColumnTrichotomy(c, a, b);
    StrLtTrichotomy(a.name, b.name);
  }

  /** Two comparable records ordered both ways share the whole key. */
  lemma KeyLeAntisymmetric(c: Column, a: Flavor, b: Flavor)
    requires Comparable(c, a, b) && KeyLe(c, a, b) && KeyLe(c, b, a)
    ensures ColumnEq(c, a, b) && a.name == b.name
  {
    ColumnTrichotomy(c, a, b);
    ColumnTrichotomy(c, b, a);
    StrLtTrichotomy(a.name, b.name);
  }

  lemma KeyLeTransitive(c: Column, a: Flavor, b: Flavor, d: Flavor)
    requires KeyLe(c, a, b) && KeyLe(c, b, d)
    ensures KeyLe(c, a, d)
  {
    if ColumnLt(c, a, b) && ColumnLt(c, b, d) {
      ColumnLtTransitive(c, a, b, d);
    } else if ColumnEq(c, a, b) && ColumnEq(c, b, d) {
      StrLtTrichotomy(a.name, b.name);
      StrLtTrichotomy(b.name, d.name);
      StrLtTrichotomy(a.name, d.name);
      if StrLt(a.name, b.name) && StrLt(b.name, d.name) {
        StrLtTransitive(a.name, b.name, d.name);
      }
    }
  }
}
