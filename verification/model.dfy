/**
 * The records the program deserialises from the GitLab REST API
 * (src/model.rs). Every field is a plain string.
 */
module Model {

  /** A group or subgroup; `fullPath` may already contain '/' separators. */
  datatype Group = Group(fullPath: string)

  /** The namespace that owns a project. */
  datatype Namespace = Namespace(fullPath: string)

  datatype Project = Project(httpUrlToRepo: string, name: string, namespace: Namespace)

  /** The authenticated user; the username doubles as a personal namespace. */
  datatype User = User(username: string)
}
