/** JSON values, as far as host labels depend on them. */
module JsonValue {

  /**
   `Other` stands for null, booleans, numbers and arrays.  No label lies below such a value: the
   member names of an object are not array indices, and every request that would reach into an
   array starts with the owner label, which is not an index either.
   */
  datatype Json = Text(text: string) | Object(members: map<string, Json>) | Other(encoding: string)
}
