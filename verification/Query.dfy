/** What the paged listings of jobs and of events have in common. */
module Query {
  /** One query parameter as a handler finds it. */
  datatype Raw = Absent | Unreadable | Number(value: int)

  function Min(a: nat, b: nat): nat {
    if a < b then a else b
  }
}
