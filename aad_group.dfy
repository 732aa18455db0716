/** A directory group record: three nullable string attributes, each with its own getter and setter. */
module Groups {
  import opened Wrappers

  /** The string attributes a group record declares, in declaration order. */
  datatype GroupField = ObjectId | ObjectType | DisplayName

  const DECLARED_STRING_FIELDS: seq<GroupField> := [ObjectId, ObjectType, DisplayName]

  /** The attribute's name as declared; the JSON key it is copied from. */
  function FieldName(f: GroupField): (r: string) {
    match f
    case ObjectId => "objectId"
    case ObjectType => "objectType"
    case DisplayName => "displayName"
  }

  class AadGroup {
    var objectId: Option<string>
    var objectType: Option<string>
    var displayName: Option<string>

    /** A new record has every attribute null. */
    constructor ()
      ensures objectId == None && objectType == None && displayName == None
    {
      objectId := None;
      objectType := None;
      displayName := None;
    }

    function GetObjectId(): (r: Option<string>)
      reads this
    {
      objectId
    }

    function GetObjectType(): (r: Option<string>)
      reads this
    {
      objectType
    }

    function GetDisplayName(): (r: Option<string>)
      reads this
    {
      displayName
    }

    /** The attribute `f` read through its getter. */
    function Field(f: GroupField): (r: Option<string>)
      reads this
    {
      match f
      case ObjectId => GetObjectId()
      case ObjectType => GetObjectType()
      case DisplayName => GetDisplayName()
    }

    method SetObjectId(v: Option<string>)
      modifies this`objectId
      ensures GetObjectId() == v
      ensures objectType == old(objectType) && displayName == old(displayName)
    {
      objectId := v;
    }

    method SetObjectType(v: Option<string>)
      modifies this`objectType
      ensures GetObjectType() == v
      ensures objectId == old(objectId) && displayName == old(displayName)
    {
      objectType := v;
    }

    method SetDisplayName(v: Option<string>)
      modifies this`displayName
      ensures GetDisplayName() == v
      ensures objectId == old(objectId) && objectType == old(objectType)
    {
      displayName := v;
    }
  }
}
