/** The POSIX.1 `<sys/stat.h>` permission bits, as Python's `stat` module
    exposes them (octal values in the comments). */
module Stat {
  const S_IRUSR: bv9 := 0x100  // 0o400
  const S_IWUSR: bv9 := 0x080  // 0o200
  const S_IXUSR: bv9 := 0x040  // 0o100
  const S_IRWXU: bv9 := 0x1C0  // 0o700
  const S_IRGRP: bv9 := 0x020  // 0o040
  const S_IWGRP: bv9 := 0x010  // 0o020
  const S_IXGRP: bv9 := 0x008  // 0o010
  const S_IRWXG: bv9 := 0x038  // 0o070
  const S_IROTH: bv9 := 0x004  // 0o004
  const S_IWOTH: bv9 := 0x002  // 0o002
  const S_IXOTH: bv9 := 0x001  // 0o001
  const S_IRWXO: bv9 := 0x007  // 0o007
}

/** `BasePermissions` and its three subclasses `OwnerPermissions`,
    `GroupPermissions` and `OthersPermissions`: for each authority, the mode
    bits of read, write, execute and their combinations. The subclass is
    chosen by the authority, so each property is a function of it. */
module Permissions {
  import opened Stat

  datatype Authority = Owner | Group | Others

  /** The weight of an authority's octal digit in a three-digit mode. */
  function Place(a: Authority): nat {
    match a
    case Owner => 64
    case Group => 8
    case Others => 1
  }

  /** `no_permissions`, the same for every authority. */
  function NoPermissions(a: Authority): (b: bv9)
    ensures b & ReadWriteExecute(a) == 0
    ensures b | Read(a) == Read(a) && b | Write(a) == Write(a) && b | Execute(a) == Execute(a)
  {
    0
  }

  function Read(a: Authority): (b: bv9)
    ensures b as int == 4 * Place(a)
  {
    match a
    case Owner => S_IRUSR
    case Group => S_IRGRP
    case Others => S_IROTH
  }

  function Write(a: Authority): (b: bv9)
    ensures b as int == 2 * Place(a)
  {
    match a
    case Owner => S_IWUSR
    case Group => S_IWGRP
    case Others => S_IWOTH
  }

  function Execute(a: Authority): (b: bv9)
    ensures b as int == 1 * Place(a)
  {
    match a
    case Owner => S_IXUSR
    case Group => S_IXGRP
    case Others => S_IXOTH
  }

  function ReadWrite(a: Authority): (b: bv9)
    ensures b == Read(a) | Write(a)
    ensures b as int == 6 * Place(a)
  {
    match a
    case Owner => S_IRUSR | S_IWUSR
    case Group => S_IRGRP | S_IWGRP
    case Others => S_IROTH | S_IWOTH
  }

  function ReadExecute(a: Authority): (b: bv9)
    ensures b == Read(a) | Execute(a)
    ensures b as int == 5 * Place(a)
  {
    match a
    case Owner => S_IRUSR | S_IXUSR
    case Group => S_IRGRP | S_IXGRP
    case Others => S_IROTH | S_IXOTH
  }

  function WriteExecute(a: Authority): (b: bv9)
    ensures b == Write(a) | Execute(a)
    ensures b as int == 3 * Place(a)
  {
    match a
    case Owner => S_IWUSR | S_IXUSR
    case Group => S_IWGRP | S_IXGRP
    case Others => S_IWOTH | S_IXOTH
  }

  /** `read_write_execute`: the `S_IRWX*` constant, which is the OR of the three single bits. */
  function ReadWriteExecute(a: Authority): (b: bv9)
    ensures b == Read(a) | Write(a) | Execute(a)
    ensures b as int == 7 * Place(a)
  {
    match a
    case Owner => S_IRWXU
    case Group => S_IRWXG
    case Others => S_IRWXO
  }

  /** `no_permissions` is 0 and the single bits are the POSIX values. */
  lemma SingleBitsArePosix()
    ensures NoPermissions(Owner) == NoPermissions(Group) == NoPermissions(Others) == 0
    ensures Read(Owner) as int == 256 && Write(Owner) as int == 128 && Execute(Owner) as int == 64
    ensures Read(Group) as int == 32 && Write(Group) as int == 16 && Execute(Group) as int == 8
    ensures Read(Others) as int == 4 && Write(Others) as int == 2 && Execute(Others) as int == 1
  {
  }

  /** Every property of an authority lies inside its own digit (0o700, 0o070
      or 0o007); the three digits are disjoint and together make 0o777. */
  lemma AuthoritiesAreDisjoint(a: Authority, b: Authority)
    ensures a != b ==> ReadWriteExecute(a) & ReadWriteExecute(b) == 0
    ensures (Read(a) | Write(a) | Execute(a) | ReadWrite(a) | ReadExecute(a) | WriteExecute(a))
            & !ReadWriteExecute(a) == 0
    ensures ReadWriteExecute(Owner) | ReadWriteExecute(Group) | ReadWriteExecute(Others) == 0x1FF
  {
  }

  /** Owner bits are group bits shifted one octal digit up, and group bits
      are others bits shifted one digit up. */
  lemma AuthorityShift()
    ensures Read(Owner) == Read(Group) << 3 && Read(Group) == Read(Others) << 3
    ensures Write(Owner) == Write(Group) << 3 && Write(Group) == Write(Others) << 3
    ensures Execute(Owner) == Execute(Group) << 3 && Execute(Group) == Execute(Others) << 3
    ensures ReadWriteExecute(Owner) == ReadWriteExecute(Group) << 3
    ensures ReadWriteExecute(Group) == ReadWriteExecute(Others) << 3
  {
  }
}
