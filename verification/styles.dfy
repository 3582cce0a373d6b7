/** The table of CSS class names and the lookup that fails on an unknown name. */
module Styles {
  import opened Wrappers

  /** The top-level keys of `CSS_CLASSES`. */
  datatype Category = Modal | Settings

  function CategoryName(c: Category): string
  {
    match c
    case Modal => "modal"
    case Settings => "settings"
  }

  /** `CSS_CLASSES[category]`: short name to class name. */
  function Classes(c: Category): (r: map<string, string>)
    ensures c.Modal? ==> r.Keys == {"example"} && r["example"] == "example-modal"
    ensures c.Settings? ==> r.Keys == {"container"} && r["container"] == "plugin-settings-container"
  {
    match c
    case Modal => map["example" := "example-modal"]
    case Settings => map["container" := "plugin-settings-container"]
  }

  /** The error `getCSSClass` throws. */
  datatype CssError = ClassNotFound(category: Category, name: string)

  function ErrorMessage(e: CssError): string
  {
    "CSS class " + CategoryName(e.category) + "." + e.name + " not found"
  }

  /**
   * `getCSSClass(category, name)`: the class stored under `name` in the
   * category's table, or a not-found error naming both.
   */
  function GetCSSClass(category: Category, name: string): (r: Result<string, CssError>)
    ensures r.Success? <==> name in Classes(category)
    ensures r.Success? ==> r.value in Classes(category).Values && Classes(category)[name] == r.value
    ensures r.Failure? ==> r.error == ClassNotFound(category, name)
  {
    var classes := Classes(category);
    if name in classes then Success(classes[name]) else Failure(ClassNotFound(category, name))
  }

  /** A name missing from the category's table fails with the message naming both. */
  lemma NotFoundMessage(category: Category, name: string)
    requires name !in Classes(category)
    ensures GetCSSClass(category, name).Failure?
    ensures ErrorMessage(GetCSSClass(category, name).error)
         == "CSS class " + CategoryName(category) + "." + name + " not found"
  {
  }

  /** The two class names the table defines. */
  lemma KnownClasses()
    ensures GetCSSClass(Modal, "example") == Success("example-modal")
    ensures GetCSSClass(Settings, "container") == Success("plugin-settings-container")
  {
  }

  /** A name from the other category's table is not found. */
  lemma CategoriesAreSeparate()
    ensures GetCSSClass(Modal, "container") == Failure(ClassNotFound(Modal, "container"))
    ensures GetCSSClass(Settings, "example") == Failure(ClassNotFound(Settings, "example"))
  {
  }

  /** A class name identifies the one (category, name) pair it is stored under. */
  lemma ClassNamesIdentifyPath(c1: Category, n1: string, c2: Category, n2: string)
    requires GetCSSClass(c1, n1).Success? && GetCSSClass(c1, n1) == GetCSSClass(c2, n2)
    ensures c1 == c2 && n1 == n2
  {
  }
}
