/**
 * ObjectFactory: creates an editor object for a role from the first
 * catalogue model with that role, taking each dimension from the model
 * when it is set and from the model's pixmap otherwise.
 */
module ObjectFactory {
  import opened Wrappers
  import opened ObjectCatalogue

  datatype Size = Size(width: nat, height: nat)

  /** An editor object as constructed: category, role, size and pixmap. */
  datatype Object = Object(category: string, role: string, size: Size, pixmap: Pixmap)

  /** A dimension of the new object: the model's own when positive, else the pixmap's. */
  function Dimension(own: nat, fallback: nat): (d: nat)
    ensures own > 0 ==> d == own
    ensures own == 0 ==> d == fallback
    ensures d > 0 <==> own > 0 || fallback > 0
  {
    if own > 0 then own else fallback
  }

  /** createObject, given the catalogue the main window's loader holds. */
  function CreateObject(catalogue: seq<ObjectModel>, role: string): (o: Object)
    ensures o.role == role
    ensures RoleIndex(catalogue, role).Some? ==>
              var m := catalogue[RoleIndex(catalogue, role).value];
              m.role == role && o.category == m.category && o.pixmap == m.pixmap &&
              o.size.width == (if m.width > 0 then m.width else m.pixmap.width) &&
              o.size.height == (if m.height > 0 then m.height else m.pixmap.height)
    ensures RoleIndex(catalogue, role).None? ==> o == Object("", role, Size(0, 0), NullPixmap)
  {
    var model := ModelByRole(catalogue, role);

    var w := Dimension(model.width, model.pixmap.width);
    var h := Dimension(model.height, model.pixmap.height);

    Object(model.category, role, Size(w, h), model.pixmap)
  }

  /**
   * The object has a positive size along an axis exactly when the model or
   * its pixmap does; a model without its own size takes the pixmap's.
   */
  lemma SizeFallsBackToPixmap(catalogue: seq<ObjectModel>, role: string)
    ensures var m := ModelByRole(catalogue, role);
            var o := CreateObject(catalogue, role);
            (o.size.width > 0 <==> m.width > 0 || m.pixmap.width > 0) &&
            (o.size.height > 0 <==> m.height > 0 || m.pixmap.height > 0) &&
            (m.width == 0 ==> o.size.width == m.pixmap.width) &&
            (m.height == 0 ==> o.size.height == m.pixmap.height)
  {
  }

  /** Models after the first one with the role never influence the object. */
  lemma LaterModelsIgnored(catalogue: seq<ObjectModel>, extra: seq<ObjectModel>, role: string)
    requires RoleIndex(catalogue, role).Some?
    ensures CreateObject(catalogue + extra, role) == CreateObject(catalogue, role)
  {
    var k := RoleIndex(catalogue, role).value;
    RoleIndexFirst(catalogue + extra, role, k);
  }
}
