/**
 * A pair of variables holding the eastward and northward components of one
 * vector field (NetCDFVectorVariable).  The pairing is an attribute
 * convention: construction stamps "standard_name" on both components, in
 * place, on the very objects it is given.
 */
module Vectors {
  import opened Variables

  const StandardName: string := "standard_name"

  class VectorVariable {
    const groupName: string
    const u: Variable
    const v: Variable

    /**
     * Keeps `u` and `v` themselves (not copies) and sets their "standard_name"
     * to "eastward_" and "northward_" followed by the group name.  Nothing
     * else of either component changes.  When `u` and `v` are one object, the
     * second stamp overwrites the first.
     */
    constructor (groupName: string, u: Variable, v: Variable)
      modifies u, v
      ensures this.groupName == groupName && this.u == u && this.v == v
      ensures u != v ==> u.attributes == old(u.attributes)[StandardName := "eastward_" + groupName]
      ensures u != v ==> v.attributes == old(v.attributes)[StandardName := "northward_" + groupName]
      ensures u == v ==> u.attributes == old(u.attributes)[StandardName := "northward_" + groupName]
      ensures u.data == old(u.data) && v.data == old(v.data)
    {
      this.groupName := groupName;
      this.u := u;
      this.v := v;
      new;
      u.SetAttribute(StandardName, "eastward_" + groupName);
      v.SetAttribute(StandardName, "northward_" + groupName);
    }
  }
}
