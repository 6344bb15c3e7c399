/** The rows of the six catalogue tables (users, courses, categories,
    course_categories, enrollments, payments) as the hosted store holds them.
    Prices and payment amounts are integer cents; timestamps are numbers whose
    order is the order of the ISO-8601 strings the store keeps. */
module Records {

  datatype Role = AdminRole | UserRole

  datatype UserRow = UserRow(id: string, name: string, email: string, role: Role, createdAt: nat)

  datatype CourseRow = CourseRow(
    id: int,
    title: string,
    description: string,
    price: int,
    imageUrl: string,
    createdBy: string,
    createdAt: nat)

  datatype Category = Category(id: int, name: string, description: string)

  datatype CourseCategory = CourseCategory(id: int, courseId: int, categoryId: int)

  datatype Enrollment = Enrollment(id: int, userId: string, courseId: int, enrolledAt: nat)

  datatype Payment = Payment(
    id: int,
    userId: string,
    courseId: int,
    amount: int,
    paymentStatus: string,
    paymentDate: nat)

  /** A course as the catalogue hands it to the pages: the stored row and the
      `author_name` derived from its creator. */
  datatype CourseView = CourseView(course: CourseRow, authorName: string)
}
