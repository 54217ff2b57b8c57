/**
 The tables of SQLite's keyword index: 120 keywords in 534 packed characters, and 127 hash chains. Each
 table is a function of the index, in the rows of the array it stands for.
 */
module KeywordTables {
  import opened KeywordIndex

  function Of13(c: nat, v0: nat, v1: nat, v2: nat, v3: nat, v4: nat, v5: nat, v6: nat, v7: nat, v8: nat,
                v9: nat, v10: nat, v11: nat, v12: nat): nat
  {
    if c == 0 then v0 else if c == 1 then v1 else if c == 2 then v2 else if c == 3 then v3 else
    if c == 4 then v4 else if c == 5 then v5 else if c == 6 then v6 else if c == 7 then v7 else
    if c == 8 then v8 else if c == 9 then v9 else if c == 10 then v10 else if c == 11 then v11 else v12
  }

  function Of18(c: nat, v0: char, v1: char, v2: char, v3: char, v4: char, v5: char, v6: char, v7: char,
                v8: char, v9: char, v10: char, v11: char, v12: char, v13: char, v14: char, v15: char,
                v16: char, v17: char): char
  {
    if c == 0 then v0 else if c == 1 then v1 else if c == 2 then v2 else if c == 3 then v3 else
    if c == 4 then v4 else if c == 5 then v5 else if c == 6 then v6 else if c == 7 then v7 else
    if c == 8 then v8 else if c == 9 then v9 else if c == 10 then v10 else if c == 11 then v11 else
    if c == 12 then v12 else if c == 13 then v13 else if c == 14 then v14 else if c == 15 then v15 else
    if c == 16 then v16 else v17
  }

  function Of5(c: nat, v0: string, v1: string, v2: string, v3: string, v4: string): string
  {
    if c == 0 then v0 else if c == 1 then v1 else if c == 2 then v2 else if c == 3 then v3 else v4
  }

  function TextAt(k: nat): char {
    match k / 18
    case 0 => Of18(k % 18, 'R', 'E', 'I', 'N', 'D', 'E', 'X', 'E', 'D', 'E', 'S', 'C', 'A', 'P', 'E', 'A', 'C', 'H')
    case 1 => Of18(k % 18, 'E', 'C', 'K', 'E', 'Y', 'B', 'E', 'F', 'O', 'R', 'E', 'I', 'G', 'N', 'O', 'R', 'E', 'G')
    case 2 => Of18(k % 18, 'E', 'X', 'P', 'L', 'A', 'I', 'N', 'S', 'T', 'E', 'A', 'D', 'D', 'A', 'T', 'A', 'B', 'A')
    case 3 => Of18(k % 18, 'S', 'E', 'L', 'E', 'C', 'T', 'A', 'B', 'L', 'E', 'F', 'T', 'H', 'E', 'N', 'D', 'E', 'F')
    case 4 => Of18(k % 18, 'E', 'R', 'R', 'A', 'B', 'L', 'E', 'L', 'S', 'E', 'X', 'C', 'E', 'P', 'T', 'R', 'A', 'N')
    case 5 => Of18(k % 18, 'S', 'A', 'C', 'T', 'I', 'O', 'N', 'A', 'T', 'U', 'R', 'A', 'L', 'T', 'E', 'R', 'A', 'I')
    case 6 => Of18(k % 18, 'S', 'E', 'X', 'C', 'L', 'U', 'S', 'I', 'V', 'E', 'X', 'I', 'S', 'T', 'S', 'A', 'V', 'E')
    case 7 => Of18(k % 18, 'P', 'O', 'I', 'N', 'T', 'E', 'R', 'S', 'E', 'C', 'T', 'R', 'I', 'G', 'G', 'E', 'R', 'E')
    case 8 => Of18(k % 18, 'F', 'E', 'R', 'E', 'N', 'C', 'E', 'S', 'C', 'O', 'N', 'S', 'T', 'R', 'A', 'I', 'N', 'T')
    case 9 => Of18(k % 18, 'O', 'F', 'F', 'S', 'E', 'T', 'E', 'M', 'P', 'O', 'R', 'A', 'R', 'Y', 'U', 'N', 'I', 'Q')
    case 10 => Of18(k % 18, 'U', 'E', 'R', 'Y', 'A', 'T', 'T', 'A', 'C', 'H', 'A', 'V', 'I', 'N', 'G', 'R', 'O', 'U')
    case 11 => Of18(k % 18, 'P', 'D', 'A', 'T', 'E', 'B', 'E', 'G', 'I', 'N', 'N', 'E', 'R', 'E', 'L', 'E', 'A', 'S')
    case 12 => Of18(k % 18, 'E', 'B', 'E', 'T', 'W', 'E', 'E', 'N', 'O', 'T', 'N', 'U', 'L', 'L', 'I', 'K', 'E', 'C')
    case 13 => Of18(k % 18, 'A', 'S', 'C', 'A', 'D', 'E', 'L', 'E', 'T', 'E', 'C', 'A', 'S', 'E', 'C', 'O', 'L', 'L')
    case 14 => Of18(k % 18, 'A', 'T', 'E', 'C', 'R', 'E', 'A', 'T', 'E', 'C', 'U', 'R', 'R', 'E', 'N', 'T', '_', 'D')
    case 15 => Of18(k % 18, 'A', 'T', 'E', 'D', 'E', 'T', 'A', 'C', 'H', 'I', 'M', 'M', 'E', 'D', 'I', 'A', 'T', 'E')
    case 16 => Of18(k % 18, 'J', 'O', 'I', 'N', 'S', 'E', 'R', 'T', 'M', 'A', 'T', 'C', 'H', 'P', 'L', 'A', 'N', 'A')
    case 17 => Of18(k % 18, 'L', 'Y', 'Z', 'E', 'P', 'R', 'A', 'G', 'M', 'A', 'B', 'O', 'R', 'T', 'V', 'A', 'L', 'U')
    case 18 => Of18(k % 18, 'E', 'S', 'W', 'H', 'E', 'N', 'W', 'H', 'E', 'R', 'E', 'N', 'A', 'M', 'E', 'A', 'F', 'T')
    case 19 => Of18(k % 18, 'E', 'R', 'E', 'P', 'L', 'A', 'C', 'E', 'A', 'N', 'D', 'E', 'F', 'A', 'U', 'L', 'T', 'A')
    case 20 => Of18(k % 18, 'U', 'T', 'O', 'I', 'N', 'C', 'R', 'E', 'M', 'E', 'N', 'T', 'C', 'A', 'S', 'T', 'C', 'O')
    case 21 => Of18(k % 18, 'L', 'U', 'M', 'N', 'C', 'O', 'M', 'M', 'I', 'T', 'C', 'O', 'N', 'F', 'L', 'I', 'C', 'T')
    case 22 => Of18(k % 18, 'C', 'O', 'V', 'E', 'R', 'I', 'N', 'G', 'L', 'O', 'B', 'Y', 'C', 'R', 'O', 'S', 'S', 'C')
    case 23 => Of18(k % 18, 'U', 'R', 'R', 'E', 'N', 'T', '_', 'T', 'I', 'M', 'E', 'S', 'T', 'A', 'M', 'P', 'R', 'I')
    case 24 => Of18(k % 18, 'M', 'A', 'R', 'Y', 'D', 'E', 'F', 'E', 'R', 'R', 'E', 'D', 'I', 'S', 'T', 'I', 'N', 'C')
    case 25 => Of18(k % 18, 'T', 'D', 'R', 'O', 'P', 'F', 'A', 'I', 'L', 'I', 'M', 'I', 'T', 'F', 'R', 'O', 'M', 'F')
    case 26 => Of18(k % 18, 'U', 'L', 'L', 'I', 'F', 'I', 'S', 'N', 'U', 'L', 'L', 'O', 'R', 'D', 'E', 'R', 'E', 'S')
    case 27 => Of18(k % 18, 'T', 'R', 'I', 'C', 'T', 'O', 'U', 'T', 'E', 'R', 'I', 'G', 'H', 'T', 'R', 'O', 'L', 'L')
    case 28 => Of18(k % 18, 'B', 'A', 'C', 'K', 'R', 'O', 'W', 'U', 'N', 'I', 'O', 'N', 'U', 'S', 'I', 'N', 'G', 'V')
    case 29 => Of18(k % 18, 'I', 'E', 'W', 'I', 'N', 'I', 'T', 'I', 'A', 'L', 'L', 'Y', ' ', ' ', ' ', ' ', ' ', ' ')
    case _ => ' '
  }

  function HashAt(h: nat): nat {
    match h / 13
    case 0 => Of13(h % 13, 72, 102, 114, 70, 0, 45, 0, 0, 78, 0, 73, 0, 0)
    case 1 => Of13(h % 13, 42, 12, 74, 15, 0, 113, 79, 50, 108, 0, 19, 0, 0)
    case 2 => Of13(h % 13, 35, 0, 116, 111, 0, 22, 87, 0, 9, 0, 0, 66, 67)
    case 3 => Of13(h % 13, 0, 65, 6, 0, 48, 84, 99, 0, 115, 98, 0, 93, 44)
    case 4 => Of13(h % 13, 0, 100, 24, 0, 17, 0, 118, 49, 23, 0, 5, 94, 25)
    case 5 => Of13(h % 13, 90, 0, 0, 120, 103, 56, 119, 53, 28, 51, 0, 85, 0)
    case 6 => Of13(h % 13, 97, 26, 0, 96, 0, 0, 0, 89, 86, 91, 82, 107, 14)
    case 7 => Of13(h % 13, 39, 106, 0, 77, 0, 18, 83, 95, 32, 0, 117, 76, 109)
    case 8 => Of13(h % 13, 58, 46, 105, 0, 0, 88, 40, 0, 112, 0, 36, 0, 0)
    case 9 => Of13(h % 13, 29, 0, 80, 59, 60, 0, 20, 57, 0, 52, 0, 0, 0)
    case _ => 0
  }

  function NextAt(i: nat): nat {
    match i / 13
    case 0 => Of13(i % 13, 0, 0, 0, 0, 4, 0, 0, 0, 0, 0, 0, 0, 0)
    case 1 => Of13(i % 13, 0, 2, 0, 0, 0, 0, 0, 0, 13, 0, 0, 0, 0)
    case 2 => Of13(i % 13, 0, 7, 0, 0, 0, 0, 0, 0, 0, 0, 0, 0, 0)
    case 3 => Of13(i % 13, 0, 0, 0, 0, 33, 0, 21, 0, 0, 0, 43, 3, 47)
    case 4 => Of13(i % 13, 0, 0, 0, 0, 30, 0, 54, 0, 38, 0, 0, 0, 1)
    case 5 => Of13(i % 13, 62, 0, 0, 63, 0, 41, 0, 0, 0, 0, 0, 0, 0)
    case 6 => Of13(i % 13, 0, 0, 0, 31, 55, 16, 34, 10, 0, 0, 0, 0, 0)
    case 7 => Of13(i % 13, 0, 0, 0, 81, 0, 11, 68, 75, 0, 8, 0, 101, 92)
    case 8 => Of13(i % 13, 0, 0, 104, 0, 71, 0, 0, 110, 27, 37, 69, 61, 0)
    case 9 => Of13(i % 13, 64, 0, 0, 0, 0, 0, 0, 0, 0, 0, 0, 0, 0)
    case _ => 0
  }

  function LenAt(i: nat): nat {
    match i / 13
    case 0 => Of13(i % 13, 7, 7, 5, 4, 6, 4, 5, 3, 6, 7, 3, 6, 6)
    case 1 => Of13(i % 13, 7, 7, 3, 8, 2, 6, 5, 4, 4, 3, 10, 4, 6)
    case 2 => Of13(i % 13, 11, 6, 2, 7, 5, 5, 9, 6, 9, 9, 7, 10, 10)
    case 3 => Of13(i % 13, 4, 6, 2, 3, 9, 4, 2, 6, 5, 6, 6, 5, 6)
    case 4 => Of13(i % 13, 5, 5, 7, 7, 7, 3, 2, 4, 4, 7, 3, 6, 4)
    case 5 => Of13(i % 13, 7, 6, 12, 6, 9, 4, 6, 5, 4, 7, 6, 5, 6)
    case 6 => Of13(i % 13, 4, 5, 6, 5, 7, 3, 7, 13, 2, 2, 4, 6, 6)
    case 7 => Of13(i % 13, 8, 8, 4, 2, 5, 17, 12, 7, 8, 8, 2, 4, 4)
    case 8 => Of13(i % 13, 5, 4, 4, 2, 6, 5, 8, 5, 5, 8, 3, 5, 5)
    case 9 => Of13(i % 13, 4, 9, 3, 0, 0, 0, 0, 0, 0, 0, 0, 0, 0)
    case _ => 0
  }

  function OffsetAt(i: nat): nat {
    match i / 13
    case 0 => Of13(i % 13, 0, 2, 2, 8, 9, 14, 16, 20, 23, 25, 25, 29, 33)
    case 1 => Of13(i % 13, 36, 41, 46, 48, 53, 54, 59, 62, 65, 67, 69, 78, 81)
    case 2 => Of13(i % 13, 86, 91, 95, 96, 101, 105, 109, 117, 122, 128, 136, 142, 152)
    case 3 => Of13(i % 13, 159, 162, 162, 165, 167, 167, 171, 176, 179, 184, 189, 194, 197)
    case 4 => Of13(i % 13, 203, 206, 210, 217, 223, 223, 223, 226, 229, 233, 234, 238, 244)
    case 5 => Of13(i % 13, 248, 255, 261, 273, 279, 288, 290, 296, 301, 303, 310, 315, 320)
    case 6 => Of13(i % 13, 326, 330, 333, 339, 343, 350, 352, 359, 361, 363, 372, 376, 382)
    case 7 => Of13(i % 13, 388, 396, 403, 406, 408, 413, 413, 429, 436, 443, 444, 451, 455)
    case 8 => Of13(i % 13, 458, 463, 467, 471, 473, 479, 483, 491, 495, 500, 508, 511, 516)
    case 9 => Of13(i % 13, 521, 525, 530, 0, 0, 0, 0, 0, 0, 0, 0, 0, 0)
    case _ => 0
  }

  function CodeAt(i: nat): Code {
    match i / 5
    case 0 => Of5(i % 5, "REINDEX", "INDEXED", "INDEX", "DESC", "ESCAPE")
    case 1 => Of5(i % 5, "EACH", "CHECK", "KEY", "BEFORE", "FOREIGN")
    case 2 => Of5(i % 5, "FOR", "IGNORE", "LIKE_KW", "EXPLAIN", "INSTEAD")
    case 3 => Of5(i % 5, "ADD", "DATABASE", "AS", "SELECT", "TABLE")
    case 4 => Of5(i % 5, "JOIN_KW", "THEN", "END", "DEFERRABLE", "ELSE")
    case 5 => Of5(i % 5, "EXCEPT", "TRANSACTION", "ACTION", "ON", "JOIN_KW")
    case 6 => Of5(i % 5, "ALTER", "RAISE", "EXCLUSIVE", "EXISTS", "SAVEPOINT")
    case 7 => Of5(i % 5, "INTERSECT", "TRIGGER", "REFERENCES", "CONSTRAINT", "INTO")
    case 8 => Of5(i % 5, "OFFSET", "OF", "SET", "TEMP", "TEMP")
    case 9 => Of5(i % 5, "OR", "UNIQUE", "QUERY", "ATTACH", "HAVING")
    case 10 => Of5(i % 5, "GROUP", "UPDATE", "BEGIN", "JOIN_KW", "RELEASE")
    case 11 => Of5(i % 5, "BETWEEN", "NOTNULL", "NOT", "NO", "NULL")
    case 12 => Of5(i % 5, "LIKE_KW", "CASCADE", "ASC", "DELETE", "CASE")
    case 13 => Of5(i % 5, "COLLATE", "CREATE", "CTIME_KW", "DETACH", "IMMEDIATE")
    case 14 => Of5(i % 5, "JOIN", "INSERT", "MATCH", "PLAN", "ANALYZE")
    case 15 => Of5(i % 5, "PRAGMA", "ABORT", "VALUES", "WHEN", "WHERE")
    case 16 => Of5(i % 5, "RENAME", "AFTER", "REPLACE", "AND", "DEFAULT")
    case 17 => Of5(i % 5, "AUTOINCR", "TO", "IN", "CAST", "COLUMNKW")
    case 18 => Of5(i % 5, "COMMIT", "CONFLICT", "COVERING", "LIKE_KW", "BY")
    case 19 => Of5(i % 5, "JOIN_KW", "CTIME_KW", "CTIME_KW", "PRIMARY", "DEFERRED")
    case 20 => Of5(i % 5, "DISTINCT", "IS", "DROP", "FAIL", "LIMIT")
    case 21 => Of5(i % 5, "FROM", "JOIN_KW", "IF", "ISNULL", "ORDER")
    case 22 => Of5(i % 5, "RESTRICT", "JOIN_KW", "JOIN_KW", "ROLLBACK", "ROW")
    case 23 => Of5(i % 5, "UNION", "USING", "VIEW", "INITIALLY", "ALL")
    case _ => ""
  }

  /** A number as a 32-bit word. */
  function Bits(a: nat): bv32 {
    if a < 0x1_0000_0000 then a as bv32 else 0
  }

  /** How the first byte, the last byte and the length are combined. */
  function Mix(first: nat, last: nat, n: nat): nat {
    ((Bits(first) * 4) ^ (Bits(last) * 3) ^ Bits(n)) as int
  }

  const SIZE := 120
  const TEXT_SIZE := 534

  function Keywords(): Index {
    Index(seq(TEXT_SIZE, k requires 0 <= k => TextAt(k)), seq(HASH_SIZE, h requires 0 <= h => HashAt(h)),
          seq(SIZE, i requires 0 <= i => NextAt(i)), seq(SIZE, i requires 0 <= i => LenAt(i)),
          seq(SIZE, i requires 0 <= i => OffsetAt(i)), seq(SIZE, i requires 0 <= i => CodeAt(i)), Mix)
  }
}
