/**
 * The editor's object catalogue (ObjectModelLoader): the object models read
 * from the object definition file, and lookups by category and by role.
 * Reading and parsing the file is left to a parameter; the model starts
 * from the parsed child elements of the document root.
 */
module ObjectCatalogue {
  import opened Wrappers

  /** A loaded image; the null pixmap has no size. */
  datatype Pixmap = Pixmap(width: nat, height: nat, image: seq<char>)

  const NullPixmap := Pixmap(0, 0, "")

  /** ObjectModel: one kind of object the editor can place. */
  datatype ObjectModel = ObjectModel(category: string, role: string, width: nat, height: nat, pixmap: Pixmap)

  /** A default-constructed ObjectModel: empty strings, no size, null pixmap. */
  const DefaultModel := ObjectModel("", "", 0, 0, NullPixmap)

  /** The position of the first model with the given role, if any. */
  function RoleIndex(objects: seq<ObjectModel>, role: string): (r: Option<nat>)
    ensures r.Some? ==> r.value < |objects| && objects[r.value].role == role
    ensures r.Some? ==> forall k :: 0 <= k < r.value ==> objects[k].role != role
    ensures r.None? ==> forall k :: 0 <= k < |objects| ==> objects[k].role != role
  {
    if objects == [] then None
    else if objects[0].role == role then Some(0)
    else
      match RoleIndex(objects[1..], role)
      case None => None
      case Some(k) => Some(k + 1)
  }

  /** The first model with the role, or the default model when none has it. */
  function ModelByRole(objects: seq<ObjectModel>, role: string): (m: ObjectModel)
    ensures RoleIndex(objects, role).Some? ==> m in objects && m.role == role
    ensures RoleIndex(objects, role).None? ==> m == DefaultModel
  {
    match RoleIndex(objects, role)
    case Some(k) => objects[k]
    case None => DefaultModel
  }

  /** The models of a category, in stored order. */
  function ByCategory(objects: seq<ObjectModel>, category: string): (r: seq<ObjectModel>)
    ensures |r| <= |objects|
    ensures forall k :: 0 <= k < |r| ==> r[k].category == category
  {
    if objects == [] then []
    else
      var last := objects[|objects| - 1];
      ByCategory(objects[..|objects| - 1], category) + (if last.category == category then [last] else [])
  }

  /** A model is selected by category exactly when it is stored and has that category. */
  lemma {:induction false} ByCategoryMembers(objects: seq<ObjectModel>, category: string, m: ObjectModel)
    ensures m in ByCategory(objects, category) <==> m in objects && m.category == category
  {
    if objects != [] {
      var p := objects[..|objects| - 1];
      ByCategoryMembers(p, category, m);
      assert objects == p + [objects[|objects| - 1]];
    }
  }

  /** Selection by category keeps the stored order: it distributes over concatenation. */
  lemma {:induction false} ByCategoryAppend(a: seq<ObjectModel>, b: seq<ObjectModel>, category: string)
    ensures ByCategory(a + b, category) == ByCategory(a, category) + ByCategory(b, category)
  {
    if b != [] {
      var b' := b[..|b| - 1];
      assert (a + b)[..|a + b| - 1] == a + b';
      ByCategoryAppend(a, b', category);
    } else {
      assert a + b == a;
    }
  }

  /** A parsed child element of the root: its tag name and attributes. */
  datatype Element = Element(name: string, attributes: map<string, string>)

  /** QDomElement::attribute with a default value. */
  function Attribute(e: Element, key: string, default: string): string {
    if key in e.attributes then e.attributes[key] else default
  }

  /** The file system and image loading seen by load. */
  datatype Environment = Environment(
    dataPath: string,
    separator: char,
    fileExists: string -> bool,
    loadPixmap: string -> Pixmap,
    toUInt: string -> nat)

  function ImagePath(env: Environment, e: Element): string {
    env.dataPath + [env.separator] + Attribute(e, "imagePath", "undefined")
  }

  /** The model an element contributes: only an "object" tag whose image file exists. */
  function ModelOf(env: Environment, e: Element): (r: Option<ObjectModel>)
    ensures r.Some? <==> e.name == "object" && env.fileExists(ImagePath(env, e))
    ensures r.Some? ==> r.value.pixmap == env.loadPixmap(ImagePath(env, e))
    ensures r.Some? ==> r.value.category == Attribute(e, "category", "undefined")
    ensures r.Some? ==> r.value.role == Attribute(e, "role", "undefined")
  {
    if e.name != "object" then None
    else
      var path := ImagePath(env, e);
      if env.fileExists(path) then
        Some(ObjectModel(
          Attribute(e, "category", "undefined"),
          Attribute(e, "role", "undefined"),
          env.toUInt(Attribute(e, "width", "0")),
          env.toUInt(Attribute(e, "height", "0")),
          env.loadPixmap(path)))
      else None
  }

  /** The models kept from a sequence of elements, in document order. */
  function Kept(env: Environment, nodes: seq<Element>): (r: seq<ObjectModel>)
    ensures forall m <- r :: exists e <- nodes :: ModelOf(env, e) == Some(m)
  {
    if nodes == [] then []
    else
      var last := nodes[|nodes| - 1];
      Kept(env, nodes[..|nodes| - 1]) + (match ModelOf(env, last) case Some(m) => [m] case None => [])
  }

  /** At most one model per element, and exactly one per element when every element is a loadable object tag. */
  lemma {:induction false} KeptCount(env: Environment, nodes: seq<Element>)
    ensures |Kept(env, nodes)| <= |nodes|
    ensures (forall k :: 0 <= k < |nodes| ==> ModelOf(env, nodes[k]).Some?) ==> |Kept(env, nodes)| == |nodes|
    ensures (forall k :: 0 <= k < |nodes| ==> ModelOf(env, nodes[k]).None?) ==> Kept(env, nodes) == []
  {
    if nodes != [] {
      var p := nodes[..|nodes| - 1];
      KeptCount(env, p);
    }
  }

  /** Keeping one more element appends that element's model, if it has one. */
  lemma KeptStep(env: Environment, nodes: seq<Element>, i: nat)
    requires i < |nodes|
    ensures Kept(env, nodes[..i + 1]) ==
              Kept(env, nodes[..i]) + (match ModelOf(env, nodes[i]) case Some(m) => [m] case None => [])
  {
    assert nodes[..i + 1][..i] == nodes[..i];
  }

  class ObjectModelLoader {
    var objects: seq<ObjectModel>

    constructor ()
      ensures objects == []
    {
      objects := [];
    }

    /**
     * load: a document that cannot be opened or parsed (None) fails and
     * keeps the catalogue; otherwise the catalogue is cleared and refilled
     * from the root's children.
     */
    method Load(document: Option<seq<Element>>, env: Environment) returns (ok: bool)
      modifies this
      ensures ok <==> document.Some?
      ensures !ok ==> objects == old(objects)
      ensures ok ==> objects == Kept(env, document.value)
    {
      if document.None? {
        return false;
      }
      var nodes := document.value;

      objects := [];

      var i := 0;
      while i < |nodes|
        invariant 0 <= i <= |nodes|
        invariant objects == Kept(env, nodes[..i])
      {
        var tag := nodes[i];
        KeptStep(env, nodes, i);
        if tag.name == "object" {
          var category := Attribute(tag, "category", "undefined");
          var role := Attribute(tag, "role", "undefined");
          var width := env.toUInt(Attribute(tag, "width", "0"));
          var height := env.toUInt(Attribute(tag, "height", "0"));
          var imagePath := Attribute(tag, "imagePath", "undefined");

          imagePath := env.dataPath + [env.separator] + imagePath;

          if env.fileExists(imagePath) {
            var pixmap := env.loadPixmap(imagePath);
            objects := objects + [ObjectModel(category, role, width, height, pixmap)];
          }
        }
        i := i + 1;
      }
      assert nodes[..|nodes|] == nodes;
      return true;
    }

    /** getObjectModelsByCategory. */
    method GetObjectModelsByCategory(category: string) returns (result: seq<ObjectModel>)
      ensures result == ByCategory(objects, category)
      ensures forall m :: m in result <==> m in objects && m.category == category
    {
      result := [];
      for i := 0 to |objects|
        invariant result == ByCategory(objects[..i], category)
      {
        assert objects[..i + 1][..i] == objects[..i];
        if objects[i].category == category {
          result := result + [objects[i]];
        }
      }
      assert objects[..|objects|] == objects;
      forall m ensures m in result <==> m in objects && m.category == category {
        ByCategoryMembers(objects, category, m);
      }
    }

    /** getObjectModelByRole: the first model with the role, or the default model. */
    method GetObjectModelByRole(role: string) returns (m: ObjectModel)
      ensures m == ModelByRole(objects, role)
      ensures m.role == role || (m == DefaultModel && forall k :: 0 <= k < |objects| ==> objects[k].role != role)
    {
      for i := 0 to |objects|
        invariant forall k :: 0 <= k < i ==> objects[k].role != role
      {
        if objects[i].role == role {
          RoleIndexFirst(objects, role, i);
          return objects[i];
        }
      }
      return DefaultModel;
    }

    /** getCategoryByRole: the category of the same first match, or the empty string. */
    method GetCategoryByRole(role: string) returns (category: string)
      ensures category == ModelByRole(objects, role).category
      ensures RoleIndex(objects, role).None? ==> category == ""
    {
      for i := 0 to |objects|
        invariant forall k :: 0 <= k < i ==> objects[k].role != role
      {
        if objects[i].role == role {
          RoleIndexFirst(objects, role, i);
          return objects[i].category;
        }
      }
      return "";
    }

    /** objects: the stored models. */
    function Objects(): seq<ObjectModel>
      reads this
    {
      objects
    }

    /** getPixmapByRole: the pixmap of the same first match, or the null pixmap. */
    method GetPixmapByRole(role: string) returns (pixmap: Pixmap)
      ensures pixmap == ModelByRole(objects, role).pixmap
      ensures RoleIndex(objects, role).None? ==> pixmap == NullPixmap
    {
      for i := 0 to |objects|
        invariant forall k :: 0 <= k < i ==> objects[k].role != role
      {
        if objects[i].role == role {
          RoleIndexFirst(objects, role, i);
          return objects[i].pixmap;
        }
      }
      return NullPixmap;
    }
  }

  /** The first position holding the role is the one RoleIndex finds. */
  lemma RoleIndexFirst(objects: seq<ObjectModel>, role: string, i: nat)
    requires i < |objects| && objects[i].role == role
    requires forall k :: 0 <= k < i ==> objects[k].role != role
    ensures RoleIndex(objects, role) == Some(i)
  {
  }
}
